/** Decoding of message-component interactions (button clicks and menu
    selections) into one tagged action, and the settings update or queue item
    each action leads to. */
module Components {
  import opened Optional
  import opened Strconv
  import opened Strs
  import opened Entities

  const RerollID := "imagine_reroll"
  const UpscalePrefix := "imagine_upscale_"
  const VariationPrefix := "imagine_variation_"
  const DimensionMenuID := "imagine_dimension_setting_menu"
  const BatchCountMenuID := "imagine_batch_count_setting_menu"
  const BatchSizeMenuID := "imagine_batch_size_setting_menu"
  const ChangeModelID := "imagine_change_model"

  const DimensionSeparator := '_'

  /** What one component interaction asks the bot to do. */
  datatype Action =
    | Reroll
    | Upscale(index: int)
    | Variation(index: int)
      /** The selection "W_H", as width and height. */
    | SetDimensions(width: int, height: int)
    | SetBatch(count: int, size: int)
    | ChangeModel(model: string)
      /** The handler logs and returns. */
    | Ignore
      /** The handler indexes past the end of a slice: a Go runtime panic. */
    | Crash

  /** A component interaction: its custom ID and the selected values. */
  datatype Component = Component(customID: string, values: seq<string>)

  /** The three default-settings menus. */
  predicate IsSettingsMenu(id: string) {
    id == DimensionMenuID || id == BatchCountMenuID || id == BatchSizeMenuID
  }

  /** The batch-count/batch-size pairing of both batch menus. */
  function PairedBatch(n: int): Option<int> {
    if n == 1 then Some(4)
    else if n == 2 then Some(2)
    else if n == 4 then Some(1)
    else None
  }

  /** The custom ID's text after `prefix`, as an index. */
  function IndexSuffix(customID: string, prefix: string): Option<int>
    requires prefix <= customID
  {
    Atoi(customID[|prefix|..])
  }

  /** The dimension menu's value "W_H": split on '_', fewer than two pieces
      panics on `sizes[1]`, pieces after the second are ignored. */
  function DimensionSelection(value: string): Action {
    var sizes := Split(value, DimensionSeparator);
    if |sizes| < 2 then Crash
    else
      match (Atoi(sizes[0]), Atoi(sizes[1]))
      case (Some(w), Some(h)) => SetDimensions(w, h)
      case _ => Ignore
  }

  /** The message-component switch of the interaction handler. */
  function Decode(c: Component): (a: Action)
    ensures a.Reroll? <==> c.customID == RerollID
    ensures a.SetBatch? ==> a.count * a.size == 4
    ensures IsSettingsMenu(c.customID) && |c.values| == 0 ==> a == Ignore
    ensures a.Crash? ==> c.customID == DimensionMenuID || c.customID == ChangeModelID
  {
    var id := c.customID;
    if id == RerollID then Reroll
    else if UpscalePrefix <= id then
      match IndexSuffix(id, UpscalePrefix)
      case Some(n) => Upscale(n)
      case None => Ignore
    else if VariationPrefix <= id then
      match IndexSuffix(id, VariationPrefix)
      case Some(n) => Variation(n)
      case None => Ignore
    else if id == DimensionMenuID then
      if |c.values| == 0 then Ignore else DimensionSelection(c.values[0])
    else if id == BatchCountMenuID then
      if |c.values| == 0 then Ignore
      else
        match Atoi(c.values[0])
        case None => Ignore
        case Some(count) =>
          match PairedBatch(count)
          case Some(size) => SetBatch(count, size)
          case None => Ignore
    else if id == BatchSizeMenuID then
      if |c.values| == 0 then Ignore
      else
        match Atoi(c.values[0])
        case None => Ignore
        case Some(size) =>
          match PairedBatch(size)
          case Some(count) => SetBatch(count, size)
          case None => Ignore
    else if id == ChangeModelID then
      if |c.values| == 0 then Crash else ChangeModel(c.values[0])
    else Ignore
  }

  /** The actions `Decode` can produce, other than Ignore and Crash. */
  predicate Encodable(a: Action) {
    match a
    case Reroll => true
    case Upscale(n) => InIntRange(n)
    case Variation(n) => InIntRange(n)
    case SetDimensions(w, h) => InIntRange(w) && InIntRange(h)
    case SetBatch(count, size) => PairedBatch(count) == Some(size)
    case ChangeModel(_) => true
    case Ignore => false
    case Crash => false
  }

  /** The component interaction that asks for `a`: the custom ID and value
      that the handler's prefixes and menu IDs decode as `a`. */
  function Encode(a: Action): Component
    requires Encodable(a)
  {
    match a
    case Reroll => Component(RerollID, [])
    case Upscale(n) => Component(UpscalePrefix + Itoa(n), [])
    case Variation(n) => Component(VariationPrefix + Itoa(n), [])
    case SetDimensions(w, h) => Component(DimensionMenuID, [Itoa(w) + [DimensionSeparator] + Itoa(h)])
    case SetBatch(count, size) => Component(BatchCountMenuID, [Itoa(count)])
    case ChangeModel(m) => Component(ChangeModelID, [m])
  }

  /** A batch pair is accepted exactly when both are positive and multiply
      to four. */
  lemma PairedBatchProduct(count: int, size: int)
    ensures PairedBatch(count) == Some(size) <==> 0 < count && 0 < size && count * size == 4
  {
    if 0 < count && 0 < size && count * size == 4 {
      assert count * (size - 1) >= 0;
      assert count <= 4;
      assert count == 1 || count == 2 || count == 3 || count == 4;
    }
  }

  /** The pairing is its own inverse, so both menus agree on the pairs. */
  lemma PairedBatchInvolution(n: int)
    ensures PairedBatch(n).Some? ==> PairedBatch(PairedBatch(n).value) == Some(n)
    ensures PairedBatch(n).Some? <==> n == 1 || n == 2 || n == 4
  {
  }

  lemma ItoaHasNoSeparator(n: int)
    ensures DimensionSeparator !in Itoa(n)
  {
    ItoaAlphabet(n);
  }

  /** Every action the handler acts on decodes back from its encoding. */
  lemma DecodeEncode(a: Action)
    requires Encodable(a)
    ensures Decode(Encode(a)) == a
  {
    match a
    case Reroll =>
    case Upscale(n) => DecodeUpscale(n);
    case Variation(n) => DecodeVariation(n);
    case SetDimensions(w, h) => DecodeDimensions(w, h);
    case SetBatch(count, size) => DecodeBatchCount(count, size);
    case ChangeModel(m) => CustomIDsDiffer();
  }

  /** The custom IDs are told apart by their ninth character (the two batch
      menus by their fifteenth). */
  lemma CustomIDsDiffer()
    ensures RerollID[8] == 'r' && UpscalePrefix[8] == 'u' && VariationPrefix[8] == 'v'
    ensures DimensionMenuID[8] == 'd' && BatchCountMenuID[8] == 'b' && BatchSizeMenuID[8] == 'b'
    ensures ChangeModelID[8] == 'c' && BatchCountMenuID[14] == 'c' && BatchSizeMenuID[14] == 's'
    ensures !(UpscalePrefix <= RerollID) && !(VariationPrefix <= RerollID)
    ensures !(UpscalePrefix <= DimensionMenuID) && !(VariationPrefix <= DimensionMenuID)
    ensures !(UpscalePrefix <= BatchCountMenuID) && !(VariationPrefix <= BatchCountMenuID)
    ensures !(UpscalePrefix <= BatchSizeMenuID) && !(VariationPrefix <= BatchSizeMenuID)
    ensures !(UpscalePrefix <= ChangeModelID) && !(VariationPrefix <= ChangeModelID)
    ensures DimensionMenuID != BatchCountMenuID && DimensionMenuID != BatchSizeMenuID
    ensures DimensionMenuID != RerollID && BatchCountMenuID != RerollID && BatchSizeMenuID != RerollID
    ensures ChangeModelID != RerollID && BatchCountMenuID != BatchSizeMenuID
  {
  }

  lemma DecodeUpscale(n: int)
    requires InIntRange(n)
    ensures Decode(Encode(Upscale(n))) == Upscale(n)
  {
    var id := UpscalePrefix + Itoa(n);
    AtoiItoa(n);
    assert id[|UpscalePrefix|..] == Itoa(n);
    assert UpscalePrefix <= id;
  }

  lemma DecodeVariation(n: int)
    requires InIntRange(n)
    ensures Decode(Encode(Variation(n))) == Variation(n)
  {
    var id := VariationPrefix + Itoa(n);
    AtoiItoa(n);
    CustomIDsDiffer();
    assert id[8] == 'v';
    assert id != RerollID by { assert id[8] != RerollID[8]; }
    assert !(UpscalePrefix <= id) by { assert id[8] != UpscalePrefix[8]; }
    assert id[|VariationPrefix|..] == Itoa(n);
    assert VariationPrefix <= id;
  }

  lemma DecodeDimensions(w: int, h: int)
    requires InIntRange(w) && InIntRange(h)
    ensures Decode(Encode(SetDimensions(w, h))) == SetDimensions(w, h)
  {
    CustomIDsDiffer();
    AtoiItoa(w);
    AtoiItoa(h);
    ItoaHasNoSeparator(w);
    ItoaHasNoSeparator(h);
    SplitAfterPiece(Itoa(w), DimensionSeparator, Itoa(h));
    SplitNoSeparator(Itoa(h), DimensionSeparator);
    assert DimensionSelection(Itoa(w) + [DimensionSeparator] + Itoa(h)) == SetDimensions(w, h);
  }

  lemma DecodeBatchCount(count: int, size: int)
    requires PairedBatch(count) == Some(size)
    ensures Decode(Encode(SetBatch(count, size))) == SetBatch(count, size)
  {
    CustomIDsDiffer();
    AtoiItoa(count);
  }

  /** Conversely, whatever the handler acts on is an encodable action: indexes
      and sizes fit an `int` and every batch pair is a pairing-map pair. */
  lemma DecodeOnlyEncodable(c: Component)
    ensures Decode(c) != Ignore && Decode(c) != Crash ==> Encodable(Decode(c))
  {
    var a := Decode(c);
    if a.SetBatch? {
      PairedBatchInvolution(a.count);
      PairedBatchInvolution(a.size);
    }
  }

  /** Upscale and variation buttons carry their index after a fixed prefix;
      the index is whatever `Atoi` makes of the rest (so a negative index
      passes), and a rest that does not parse is ignored. */
  lemma IndexedButtons(c: Component, n: int)
    ensures Decode(c) == Upscale(n) <==> UpscalePrefix <= c.customID && Atoi(c.customID[|UpscalePrefix|..]) == Some(n)
    ensures Decode(c) == Variation(n) <==> VariationPrefix <= c.customID && Atoi(c.customID[|VariationPrefix|..]) == Some(n)
    ensures UpscalePrefix <= c.customID && Atoi(c.customID[|UpscalePrefix|..]).None? ==> Decode(c) == Ignore
    ensures VariationPrefix <= c.customID && Atoi(c.customID[|VariationPrefix|..]).None? ==> Decode(c) == Ignore
  {
    if VariationPrefix <= c.customID {
      assert c.customID[8] == 'v';
      assert !(UpscalePrefix <= c.customID);
    }
  }

  /** The two batch menus: a paired value yields the pair whichever menu it
      came from, any other value (or none) yields nothing. */
  lemma BatchMenus(count: int, size: int, v: string, rest: seq<string>)
    requires PairedBatch(count) == Some(size)
    ensures Decode(Component(BatchCountMenuID, [Itoa(count)] + rest)) == SetBatch(count, size)
    ensures Decode(Component(BatchSizeMenuID, [Itoa(size)] + rest)) == SetBatch(count, size)
    ensures Atoi(v).None? || PairedBatch(Atoi(v).value).None? ==>
              Decode(Component(BatchCountMenuID, [v] + rest)) == Ignore &&
              Decode(Component(BatchSizeMenuID, [v] + rest)) == Ignore
  {
    CustomIDsDiffer();
    AtoiItoa(count);
    AtoiItoa(size);
    PairedBatchInvolution(count);
    assert ([Itoa(count)] + rest)[0] == Itoa(count);
    assert ([Itoa(size)] + rest)[0] == Itoa(size);
    assert ([v] + rest)[0] == v;
  }

  /** A dimension value needs a separator and two integers before and after
      it: without the separator the handler panics, and when either of the
      first two pieces does not parse it does nothing. */
  lemma DimensionValues(v: string, rest: seq<string>)
    ensures Decode(Component(DimensionMenuID, [v] + rest)) == Crash <==> DimensionSeparator !in v
    ensures var sizes := Split(v, DimensionSeparator);
            2 <= |sizes| ==>
              Decode(Component(DimensionMenuID, [v] + rest)) ==
                if Atoi(sizes[0]).Some? && Atoi(sizes[1]).Some? then SetDimensions(Atoi(sizes[0]).value, Atoi(sizes[1]).value)
                else Ignore
    ensures Decode(Component(DimensionMenuID, [v] + rest)).SetDimensions? ==>
              var sizes := Split(v, DimensionSeparator);
              2 <= |sizes| &&
              Atoi(sizes[0]) == Some(Decode(Component(DimensionMenuID, [v] + rest)).width) &&
              Atoi(sizes[1]) == Some(Decode(Component(DimensionMenuID, [v] + rest)).height)
  {
    CustomIDsDiffer();
    assert ([v] + rest)[0] == v;
    if DimensionSeparator !in v {
      SplitNoSeparator(v, DimensionSeparator);
    }
  }

  /** What a settings action asks the settings store for. */
  datatype SettingsUpdate = UpdateDimensions(width: int, height: int) | UpdateBatch(count: int, size: int) | NoUpdate

  /** `processImagineDimensionSetting` as written: its parameters are
      declared `(height, width)`, it is called with `(widthInt, heightInt)`,
      and it forwards `(width, height)` to `UpdateDefaultDimensions`. */
  function ProcessDimensionSettingAsWritten(height: int, width: int): SettingsUpdate {
    UpdateDimensions(width, height)
  }

  /** The update the handler requests, as written. */
  function SettingsUpdateAsWritten(a: Action): SettingsUpdate {
    match a
    case SetDimensions(w, h) => ProcessDimensionSettingAsWritten(w, h)
    case SetBatch(count, size) => UpdateBatch(count, size)
    case _ => NoUpdate
  }

  /** The corrected update: the selected width as the width. Compare
      `SettingsUpdateAsWritten`. */
  function SettingsUpdateOf(a: Action): SettingsUpdate {
    match a
    case SetDimensions(w, h) => UpdateDimensions(w, h)
    case SetBatch(count, size) => UpdateBatch(count, size)
    case _ => NoUpdate
  }

  /** As written, selecting "W_H" stores width H and height W. */
  lemma DimensionsSwappedAsWritten(w: int, h: int)
    requires InIntRange(w) && InIntRange(h)
    ensures SettingsUpdateAsWritten(Decode(Encode(SetDimensions(w, h)))) == UpdateDimensions(h, w)
  {
    DecodeEncode(SetDimensions(w, h));
  }

  /** A concrete selection the swap gets wrong. */
  lemma DimensionsSwapWitness()
    ensures SettingsUpdateAsWritten(Decode(Component(DimensionMenuID, ["512_768"]))) == UpdateDimensions(768, 512)
  {
    assert Itoa(512) == "512" && Itoa(768) == "768";
    assert "512_768" == Itoa(512) + [DimensionSeparator] + Itoa(768);
    DimensionsSwappedAsWritten(512, 768);
  }

  /** Corrected, the update carries the selection unchanged; for square
      selections (the only ones the menu offers) both agree. */
  lemma DimensionsForwarded(w: int, h: int)
    requires InIntRange(w) && InIntRange(h)
    ensures SettingsUpdateOf(Decode(Encode(SetDimensions(w, h)))) == UpdateDimensions(w, h)
    ensures w == h ==> SettingsUpdateAsWritten(Decode(Encode(SetDimensions(w, h)))) == UpdateDimensions(w, h)
  {
    DecodeEncode(SetDimensions(w, h));
  }

  /** Every batch update the menus request keeps count × size = 4, and only
      a settings menu with a selected value requests an update, both as
      written and corrected. */
  lemma SettingsUpdates(c: Component)
    ensures SettingsUpdateAsWritten(Decode(c)).UpdateBatch? ==>
              SettingsUpdateAsWritten(Decode(c)).count * SettingsUpdateAsWritten(Decode(c)).size == 4
    ensures SettingsUpdateAsWritten(Decode(c)) != NoUpdate ==> IsSettingsMenu(c.customID) && 0 < |c.values|
    ensures SettingsUpdateOf(Decode(c)).UpdateBatch? ==>
              SettingsUpdateOf(Decode(c)).count * SettingsUpdateOf(Decode(c)).size == 4
    ensures SettingsUpdateOf(Decode(c)) != NoUpdate ==> IsSettingsMenu(c.customID) && 0 < |c.values|
  {
  }

  /** The queue item a follow-up button enqueues: no prompt, no options,
      and the button's index unchecked. */
  function FollowUpItem(a: Action): (item: Option<QueueItem>)
    ensures item.Some? <==> a.Reroll? || a.Upscale? || a.Variation?
    ensures item.Some? ==> item.value.prompt == "" && item.value.options == None
    ensures item.Some? ==>
              && (item.value.itemType == ItemTypeReroll <==> a.Reroll?)
              && (item.value.itemType == ItemTypeUpscale <==> a.Upscale?)
              && (item.value.itemType == ItemTypeVariation <==> a.Variation?)
    ensures a.Upscale? || a.Variation? ==> item.value.interactionIndex == a.index
    ensures a.Reroll? ==> item.value.interactionIndex == 0
  {
    match a
    case Reroll => Some(QueueItem("", None, ItemTypeReroll, 0))
    case Upscale(n) => Some(QueueItem("", None, ItemTypeUpscale, n))
    case Variation(n) => Some(QueueItem("", None, ItemTypeVariation, n))
    case _ => None
  }

  /** The index on an upscale or variation button reaches the queue item
      unchanged, including negative ones. */
  lemma FollowUpIndex(n: int)
    requires InIntRange(n)
    ensures FollowUpItem(Decode(Encode(Upscale(n)))) == Some(QueueItem("", None, ItemTypeUpscale, n))
    ensures FollowUpItem(Decode(Encode(Variation(n)))) == Some(QueueItem("", None, ItemTypeVariation, n))
  {
    DecodeEncode(Upscale(n));
    DecodeEncode(Variation(n));
  }
}
