/** The Discord payload shapes the bot builds and reads: slash-command
    options as they arrive, select-menu options and command choices as they
    are sent. */
module Discord {
  import opened Optional

  /** The value of one slash-command option, tagged with the type it was
      registered with. */
  datatype OptionValue =
    | StringValue(str: string)
    | BooleanValue(flag: bool)
    | NumberValue(number: real)
    | IntegerValue(integer: int)

  /** One option of an application-command interaction, in arrival order. */
  datatype CommandOption = CommandOption(name: string, value: OptionValue)

  /** `discordgo.SelectMenuOption`; `Zero` is Go's zero value for it. */
  datatype MenuOption = MenuOption(labelText: string, value: string, isDefault: bool)

  const Zero := MenuOption("", "", false)

  /** `discordgo.SelectMenu`, each alone in its own actions row. */
  datatype SelectMenu = SelectMenu(customID: string, minValues: int, maxValues: int, options: seq<MenuOption>)

  /** `discordgo.ApplicationCommandOptionChoice` with a string value. */
  datatype Choice = Choice(name: string, value: string)

  /** Discord's limit on menu options and command choices. */
  const MaxChoices := 25

  function Min(a: int, b: int): int {
    if a <= b then a else b
  }

  /** Index of the last option called `name`, or -1 when there is none. */
  function LastIndexNamed(options: seq<CommandOption>, name: string): (k: int)
    ensures -1 <= k < |options|
    ensures 0 <= k ==> options[k].name == name
    ensures forall j :: k < j < |options| ==> options[j].name != name
    decreases |options|
  {
    if |options| == 0 then -1
    else if options[|options| - 1].name == name then |options| - 1
    else LastIndexNamed(options[..|options| - 1], name)
  }

  /** The value of the last option called `name`, if any. */
  function LastValue(options: seq<CommandOption>, name: string): Option<OptionValue> {
    var k := LastIndexNamed(options, name);
    if k < 0 then None else Some(options[k].value)
  }

  /** The last option called `name` as a string, or `absent` when there is
      none. */
  function StringArg(options: seq<CommandOption>, name: string, absent: string): string {
    match LastValue(options, name)
    case Some(StringValue(s)) => s
    case Some(_) => absent
    case None => absent
  }
}
