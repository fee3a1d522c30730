/** The four slash-command names the bot registers, derived from one base
    name and the development-mode flag, and the dispatch that routes an
    incoming command by name. */
module CommandNames {
  import opened Optional

  datatype CommandKind = Imagine | ImagineExt | ImagineSettings | ChangeModel

  const DevPrefix := "dev_"

  function Suffix(kind: CommandKind): string {
    match kind
    case Imagine => ""
    case ImagineExt => "_ext"
    case ImagineSettings => "_settings"
    case ChangeModel => "_change_model"
  }

  /** The name registered for `kind`: `imagineCommandString`,
      `imagineExtCommandString`, `imagineSettingsCommandString` and
      `changeModelCommandString`. */
  function CommandName(kind: CommandKind, base: string, dev: bool): string {
    if dev then DevPrefix + base + Suffix(kind) else base + Suffix(kind)
  }

  /** The command switch of the interaction handler: the first name that
      matches wins, an unknown name is only logged. */
  function Dispatch(name: string, base: string, dev: bool): Option<CommandKind> {
    if name == CommandName(Imagine, base, dev) then Some(Imagine)
    else if name == CommandName(ImagineExt, base, dev) then Some(ImagineExt)
    else if name == CommandName(ImagineSettings, base, dev) then Some(ImagineSettings)
    else if name == CommandName(ChangeModel, base, dev) then Some(ChangeModel)
    else None
  }

  /** In development mode every name is the production name behind `dev_`;
      the other three names are the base name plus their suffix. */
  lemma DevNames(kind: CommandKind, base: string)
    ensures CommandName(kind, base, true) == DevPrefix + CommandName(kind, base, false)
    ensures CommandName(Imagine, base, false) == base
    ensures CommandName(ImagineExt, base, false) == base + "_ext"
    ensures CommandName(ImagineSettings, base, false) == base + "_settings"
    ensures CommandName(ChangeModel, base, false) == base + "_change_model"
  {
  }

  /** For every base name the four names are pairwise distinct, since their
      suffixes have different lengths. */
  lemma NamesDistinct(k1: CommandKind, k2: CommandKind, base: string, dev: bool)
    requires k1 != k2
    ensures CommandName(k1, base, dev) != CommandName(k2, base, dev)
  {
    assert |CommandName(k1, base, dev)| - |Suffix(k1)| == |CommandName(k2, base, dev)| - |Suffix(k2)|;
  }

  /** Dispatch is unambiguous: each registered name routes to its own
      handler, and only registered names route anywhere. */
  lemma DispatchRoundTrip(name: string, base: string, dev: bool, kind: CommandKind)
    ensures Dispatch(name, base, dev) == Some(kind) <==> name == CommandName(kind, base, dev)
  {
    if name == CommandName(kind, base, dev) {
      forall other | other != kind
        ensures CommandName(other, base, dev) != name
      {
        NamesDistinct(other, kind, base, dev);
      }
    }
  }
}
