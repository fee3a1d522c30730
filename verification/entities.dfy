/** The values the bot hands to, and receives from, its collaborators: the
    queue item it enqueues, the generation options inside it, and the bot's
    default settings. Only the fields the bot reads or writes are modelled. */
module Entities {
  import opened Optional

  /** The process-wide defaults the settings menus display and change. */
  datatype DefaultSettings = DefaultSettings(width: int, height: int, batchCount: int, batchSize: int)

  /** The generation options the extended command fills in. `cfgScale` is a
      float in the program; it is only copied, never computed with. */
  datatype QueueItemOptions = QueueItemOptions(
    prompt: string,
    negativePrompt: string,
    restoreFaces: bool,
    cfgScale: real,
    seed: int,
    samplerName: string,
    steps: int)

  datatype ItemType = ItemTypeImagine | ItemTypeReroll | ItemTypeUpscale | ItemTypeVariation

  /** One request for the queue. `options` is a pointer in the program: `None`
      is nil. `interactionIndex` is Go's zero value (0) unless set. The Discord
      interaction the item answers is an opaque handle and is not modelled. */
  datatype QueueItem = QueueItem(
    prompt: string,
    options: Option<QueueItemOptions>,
    itemType: ItemType,
    interactionIndex: int)
}
