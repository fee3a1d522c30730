/** The two imagine slash commands: the plain one, which enqueues the prompt
    with default options, and the extended one, which folds its options into
    the queued prompt and generation options. */
module Commands {
  import opened Optional
  import opened Entities
  import opened Discord

  const PromptOption := "prompt"
  const NegativeOption := "negative"

  /** Option names of the extended command. */
  const ExtAspectRatio := "aspect_ratio"
  const ExtCfgScale := "cfg_scale"
  const ExtEmbeddings := "embeddings"
  const ExtNegativePrompt := "negative_prompt"
  const ExtPrompt := "prompt"
  const ExtRestoreFaces := "restore_faces"
  const ExtSampler := "sampler"
  const ExtSeed := "seed"
  const ExtSteps := "steps"

  /** The option map `processImagineCommand` builds: one entry per name, a
      later option with the same name replacing an earlier one. */
  method BuildOptionMap(options: seq<CommandOption>) returns (m: map<string, CommandOption>)
    ensures forall name :: name in m <==> 0 <= LastIndexNamed(options, name)
    ensures forall name :: name in m ==> m[name] == options[LastIndexNamed(options, name)]
  {
    m := map[];
    var i := 0;
    while i < |options|
      invariant 0 <= i <= |options|
      invariant forall name :: name in m <==> 0 <= LastIndexNamed(options[..i], name)
      invariant forall name :: name in m ==> m[name] == options[LastIndexNamed(options[..i], name)]
    {
      assert options[..i + 1][..i] == options[..i];
      m := m[options[i].name := options[i]];
      i := i + 1;
    }
    assert options[..|options|] == options;
  }

  /** The plain command's options are strings. */
  predicate PlainWellTyped(options: seq<CommandOption>) {
    forall k :: 0 <= k < |options| ==>
      (options[k].name == PromptOption || options[k].name == NegativeOption) ==> options[k].value.StringValue?
  }

  /** The item `processImagineCommand` enqueues, as written: nothing without
      a prompt, and both branches build the same item from the default
      options, so the negative prompt never reaches it. */
  function ImagineItemAsWritten(prompt: string, negative: string, defaults: QueueItemOptions): Option<QueueItem> {
    if negative != "" && prompt != "" then Some(QueueItem(prompt, Some(defaults), ItemTypeImagine, 0))
    else if prompt != "" then Some(QueueItem(prompt, Some(defaults), ItemTypeImagine, 0))
    else None
  }

  /** The item as evidently intended: a given negative prompt replaces the
      default one. */
  function ImagineItem(prompt: string, negative: string, defaults: QueueItemOptions): Option<QueueItem> {
    if negative != "" && prompt != "" then
      Some(QueueItem(prompt, Some(defaults.(negativePrompt := negative)), ItemTypeImagine, 0))
    else if prompt != "" then Some(QueueItem(prompt, Some(defaults), ItemTypeImagine, 0))
    else None
  }

  /** As written, the negative prompt makes no difference to what is queued. */
  lemma NegativeDroppedAsWritten(prompt: string, negative: string, defaults: QueueItemOptions)
    ensures ImagineItemAsWritten(prompt, negative, defaults) == ImagineItemAsWritten(prompt, "", defaults)
    ensures ImagineItemAsWritten(prompt, negative, defaults).Some? ==>
              ImagineItemAsWritten(prompt, negative, defaults).value.options == Some(defaults)
  {
  }

  /** A concrete request whose negative prompt is lost as written. */
  lemma NegativeDroppedWitness(defaults: QueueItemOptions)
    requires defaults.negativePrompt != "blurry"
    ensures ImagineItemAsWritten("a cat", "blurry", defaults).value.options.value.negativePrompt != "blurry"
    ensures ImagineItem("a cat", "blurry", defaults).value.options.value.negativePrompt == "blurry"
  {
  }

  /** The prompt and negative prompt `processImagineCommand` reads from its
      option map; an absent option reads as "". */
  method PlainArguments(options: seq<CommandOption>) returns (prompt: string, negative: string)
    requires PlainWellTyped(options)
    ensures prompt == StringArg(options, PromptOption, "")
    ensures negative == StringArg(options, NegativeOption, "")
  {
    var optionMap := BuildOptionMap(options);
    prompt := "";
    negative := "";
    if PromptOption in optionMap {
      prompt := optionMap[PromptOption].value.str;
    }
    if NegativeOption in optionMap {
      negative := optionMap[NegativeOption].value.str;
    }
  }

  /** `processImagineCommand` as written: enqueue only a non-empty prompt,
      always with the default options, reporting the position `addImagine`
      (the queue) returns, or position 0 when nothing was enqueued. The
      negative prompt reaches only the reply. */
  method ProcessImagineCommand(options: seq<CommandOption>, defaults: QueueItemOptions, addImagine: QueueItem -> int)
    returns (enqueued: Option<QueueItem>, position: int, prompt: string, negative: string)
    requires PlainWellTyped(options)
    ensures prompt == StringArg(options, PromptOption, "") && negative == StringArg(options, NegativeOption, "")
    ensures enqueued.Some? <==> prompt != ""
    ensures enqueued.Some? ==> enqueued.value.prompt == prompt && enqueued.value.itemType == ItemTypeImagine
    ensures enqueued.Some? ==> enqueued.value.options == Some(defaults)
    ensures enqueued.None? ==> position == 0
    ensures enqueued.Some? ==> position == addImagine(enqueued.value)
  {
    prompt, negative := PlainArguments(options);
    enqueued := ImagineItemAsWritten(prompt, negative, defaults);
    position := 0;
    if enqueued.Some? {
      position := addImagine(enqueued.value);
    }
  }

  /** Corrected `processImagineCommand`: as written, except that a given
      negative prompt replaces the default one in the queued options. */
  method ProcessImagineCommandCorrected(options: seq<CommandOption>, defaults: QueueItemOptions, addImagine: QueueItem -> int)
    returns (enqueued: Option<QueueItem>, position: int, prompt: string, negative: string)
    requires PlainWellTyped(options)
    ensures prompt == StringArg(options, PromptOption, "") && negative == StringArg(options, NegativeOption, "")
    ensures enqueued.Some? <==> prompt != ""
    ensures enqueued.Some? ==> enqueued.value.prompt == prompt && enqueued.value.itemType == ItemTypeImagine
    ensures enqueued.Some? ==>
              enqueued.value.options == Some(if negative == "" then defaults else defaults.(negativePrompt := negative))
    ensures enqueued.None? ==> position == 0
    ensures enqueued.Some? ==> position == addImagine(enqueued.value)
  {
    prompt, negative := PlainArguments(options);
    enqueued := ImagineItem(prompt, negative, defaults);
    position := 0;
    if enqueued.Some? {
      position := addImagine(enqueued.value);
    }
  }

  /** Each extended option arrives with the type it was registered with. */
  predicate ExtWellTyped(o: CommandOption) {
    && (o.name in {ExtAspectRatio, ExtPrompt, ExtNegativePrompt, ExtSampler, ExtEmbeddings} ==> o.value.StringValue?)
    && (o.name == ExtRestoreFaces ==> o.value.BooleanValue?)
    && (o.name == ExtCfgScale ==> o.value.NumberValue?)
    && (o.name == ExtSeed || o.name == ExtSteps ==> o.value.IntegerValue?)
  }

  predicate AllExtWellTyped(options: seq<CommandOption>) {
    forall o | o in options :: ExtWellTyped(o)
  }

  /** One arm of the option switch in `processImagineExtCommand`. */
  function ApplyExtOption(q: QueueItemOptions, o: CommandOption): QueueItemOptions
    requires ExtWellTyped(o)
  {
    if o.name == ExtAspectRatio then
      if o.value.str != "" then q.(prompt := q.prompt + " " + o.value.str) else q
    else if o.name == ExtPrompt then q.(prompt := o.value.str)
    else if o.name == ExtNegativePrompt then q.(negativePrompt := o.value.str)
    else if o.name == ExtRestoreFaces then q.(restoreFaces := o.value.flag)
    else if o.name == ExtCfgScale then q.(cfgScale := o.value.number)
    else if o.name == ExtSeed then q.(seed := o.value.integer)
    else if o.name == ExtSampler then q.(samplerName := o.value.str)
    else if o.name == ExtEmbeddings then q.(prompt := q.prompt + ", " + o.value.str)
    else if o.name == ExtSteps then q.(steps := o.value.integer)
    else q
  }

  /** The option loop of `processImagineExtCommand`, in arrival order,
      starting from the default options. */
  function FoldExtOptions(defaults: QueueItemOptions, options: seq<CommandOption>): QueueItemOptions
    requires AllExtWellTyped(options)
    decreases |options|
  {
    if |options| == 0 then defaults
    else ApplyExtOption(FoldExtOptions(defaults, options[..|options| - 1]), options[|options| - 1])
  }

  /** What one option appends to the prompt: " " and a non-empty aspect
      ratio, or ", " and an embedding. */
  function PromptSuffix(o: CommandOption): string {
    match o.value
    case StringValue(s) =>
      if o.name == ExtAspectRatio && s != "" then " " + s
      else if o.name == ExtEmbeddings then ", " + s
      else ""
    case _ => ""
  }

  /** The suffixes of all `options`, in order. */
  function Suffixes(options: seq<CommandOption>): string
    decreases |options|
  {
    if |options| == 0 then ""
    else Suffixes(options[..|options| - 1]) + PromptSuffix(options[|options| - 1])
  }

  lemma FrontWellTyped(options: seq<CommandOption>)
    requires AllExtWellTyped(options) && 0 < |options|
    ensures AllExtWellTyped(options[..|options| - 1])
  {
    var front := options[..|options| - 1];
    forall o | o in front ensures ExtWellTyped(o) {
      var j :| 0 <= j < |front| && front[j] == o;
      assert options[j] == o;
    }
  }

  /** A `prompt` option replaces the prompt; any other option appends its
      suffix to it. */
  lemma ApplyPrompt(q: QueueItemOptions, o: CommandOption)
    requires ExtWellTyped(o)
    ensures ApplyExtOption(q, o).prompt == if o.name == ExtPrompt then o.value.str else q.prompt + PromptSuffix(o)
  {
  }

  /** The suffixes of the options after the last `prompt` option. */
  function TrailingSuffixes(options: seq<CommandOption>): string
    decreases |options|
  {
    if |options| == 0 then ""
    else if options[|options| - 1].name == ExtPrompt then ""
    else TrailingSuffixes(options[..|options| - 1]) + PromptSuffix(options[|options| - 1])
  }

  /** The prompt the extended command queues, as written: the last `prompt`
      option (or the default prompt) followed only by the suffixes of the
      options that arrived after it. */
  lemma {:induction false} ExtFoldPrompt(defaults: QueueItemOptions, options: seq<CommandOption>)
    requires AllExtWellTyped(options)
    ensures FoldExtOptions(defaults, options).prompt ==
            StringArg(options, ExtPrompt, defaults.prompt) + TrailingSuffixes(options)
    decreases |options|
  {
    if |options| > 0 {
      var front := options[..|options| - 1];
      var last := options[|options| - 1];
      FrontWellTyped(options);
      ExtFoldPrompt(defaults, front);
      ApplyPrompt(FoldExtOptions(defaults, front), last);
      assert ExtWellTyped(last);
      if last.name != ExtPrompt {
        var base := StringArg(front, ExtPrompt, defaults.prompt);
        assert StringArg(options, ExtPrompt, defaults.prompt) == base;
        AppendAssoc(base, TrailingSuffixes(front), PromptSuffix(last));
      } else {
        assert StringArg(options, ExtPrompt, defaults.prompt) + "" == StringArg(options, ExtPrompt, defaults.prompt);
      }
    }
  }

  lemma AppendAssoc<T>(a: seq<T>, b: seq<T>, c: seq<T>)
    ensures (a + b) + c == a + (b + c)
  {
  }

  /** The options that set one generation field each. */
  const FieldOptions := {ExtNegativePrompt, ExtRestoreFaces, ExtCfgScale, ExtSeed, ExtSampler, ExtSteps}

  /** The field the option `name` sets, as an option value. */
  function FieldValue(q: QueueItemOptions, name: string): OptionValue
    requires name in FieldOptions
  {
    if name == ExtNegativePrompt then StringValue(q.negativePrompt)
    else if name == ExtRestoreFaces then BooleanValue(q.restoreFaces)
    else if name == ExtCfgScale then NumberValue(q.cfgScale)
    else if name == ExtSeed then IntegerValue(q.seed)
    else if name == ExtSampler then StringValue(q.samplerName)
    else IntegerValue(q.steps)
  }

  /** An option sets its own field and leaves every other field alone. */
  lemma ApplyFrame(q: QueueItemOptions, o: CommandOption, name: string)
    requires ExtWellTyped(o) && name in FieldOptions
    ensures FieldValue(ApplyExtOption(q, o), name) == if o.name == name then o.value else FieldValue(q, name)
  {
  }

  /** Every field other than the prompt is the value of the last option of
      its name, or the default when that option is absent. */
  lemma {:induction false} ExtFoldFields(defaults: QueueItemOptions, options: seq<CommandOption>, name: string)
    requires AllExtWellTyped(options) && name in FieldOptions
    ensures FieldValue(FoldExtOptions(defaults, options), name) == LastValue(options, name).GetOr(FieldValue(defaults, name))
    decreases |options|
  {
    if |options| > 0 {
      var front := options[..|options| - 1];
      FrontWellTyped(options);
      ExtFoldFields(defaults, front, name);
      ApplyFrame(FoldExtOptions(defaults, front), options[|options| - 1], name);
    }
  }

  /** The prompt as evidently intended: the last `prompt` option (or the
      default prompt) followed by the suffixes of every aspect-ratio and
      embedding option, wherever the prompt option arrived. */
  function IntendedExtPrompt(defaults: QueueItemOptions, options: seq<CommandOption>): string {
    StringArg(options, ExtPrompt, defaults.prompt) + Suffixes(options)
  }

  /** The item `processImagineExtCommand` enqueues, as written. */
  function ExtCommandItemAsWritten(defaults: QueueItemOptions, options: seq<CommandOption>): QueueItem
    requires AllExtWellTyped(options)
  {
    var q := FoldExtOptions(defaults, options);
    QueueItem(q.prompt, Some(q), ItemTypeImagine, 0)
  }

  /** `processImagineExtCommand` as written: it always enqueues the folded
      options, whose prompt is the last `prompt` option (or the default
      prompt) followed only by the suffixes of the options after it, and
      reports the position the queue returns. */
  method ProcessImagineExtCommand(options: seq<CommandOption>, defaults: QueueItemOptions, addImagine: QueueItem -> int)
    returns (item: QueueItem, position: int)
    requires AllExtWellTyped(options)
    ensures item.itemType == ItemTypeImagine && item.options.Some? && item.options.value.prompt == item.prompt
    ensures item.prompt == StringArg(options, ExtPrompt, defaults.prompt) + TrailingSuffixes(options)
    ensures forall name | name in FieldOptions ::
              FieldValue(item.options.value, name) == LastValue(options, name).GetOr(FieldValue(defaults, name))
    ensures position == addImagine(item)
  {
    var q := FoldExtOptions(defaults, options);
    ExtFoldPrompt(defaults, options);
    forall name | name in FieldOptions
      ensures FieldValue(q, name) == LastValue(options, name).GetOr(FieldValue(defaults, name))
    {
      ExtFoldFields(defaults, options, name);
    }
    item := QueueItem(q.prompt, Some(q), ItemTypeImagine, 0);
    position := addImagine(item);
  }

  /** Corrected `processImagineExtCommand`: as written, except that every
      aspect-ratio and embedding suffix is kept, wherever the `prompt`
      option arrived. */
  method ProcessImagineExtCommandCorrected(options: seq<CommandOption>, defaults: QueueItemOptions, addImagine: QueueItem -> int)
    returns (item: QueueItem, position: int)
    requires AllExtWellTyped(options)
    ensures item.itemType == ItemTypeImagine && item.options.Some? && item.options.value.prompt == item.prompt
    ensures item.prompt == StringArg(options, ExtPrompt, defaults.prompt) + Suffixes(options)
    ensures forall name | name in FieldOptions ::
              FieldValue(item.options.value, name) == LastValue(options, name).GetOr(FieldValue(defaults, name))
    ensures position == addImagine(item)
  {
    var q := FoldExtOptions(defaults, options);
    forall name | name in FieldOptions
      ensures FieldValue(q, name) == LastValue(options, name).GetOr(FieldValue(defaults, name))
    {
      ExtFoldFields(defaults, options, name);
    }
    var prompt := IntendedExtPrompt(defaults, options);
    var intended := q.(prompt := prompt);
    forall name | name in FieldOptions
      ensures FieldValue(intended, name) == FieldValue(q, name)
    {
    }
    item := QueueItem(prompt, Some(intended), ItemTypeImagine, 0);
    position := addImagine(item);
  }

  /** An aspect ratio chosen before the prompt is lost as written. */
  lemma ExtOrderWitness(defaults: QueueItemOptions)
    ensures var options := [CommandOption(ExtAspectRatio, StringValue("--ar 4:3")), CommandOption(ExtPrompt, StringValue("a cat"))];
            && ExtCommandItemAsWritten(defaults, options).prompt == "a cat"
            && IntendedExtPrompt(defaults, options) == "a cat --ar 4:3"
  {
    var ar := CommandOption(ExtAspectRatio, StringValue("--ar 4:3"));
    var pr := CommandOption(ExtPrompt, StringValue("a cat"));
    var options := [ar, pr];
    assert options[..1] == [ar];
    assert [ar][..0] == [];
    ApplyPrompt(FoldExtOptions(defaults, [ar]), pr);
    assert PromptSuffix(pr) == "";
    assert Suffixes([ar]) == " --ar 4:3";
    assert Suffixes(options) == " --ar 4:3";
    assert StringArg(options, ExtPrompt, defaults.prompt) == "a cat";
  }

  /** The `prompt` options, in arrival order. */
  function Prompts(options: seq<CommandOption>): (r: seq<CommandOption>)
    ensures forall o | o in r :: o in options && o.name == ExtPrompt
    decreases |options|
  {
    if |options| == 0 then []
    else
      var rest := Prompts(options[..|options| - 1]);
      if options[|options| - 1].name == ExtPrompt then rest + [options[|options| - 1]] else rest
  }

  /** The other options, in arrival order. */
  function NonPrompts(options: seq<CommandOption>): (r: seq<CommandOption>)
    ensures forall o | o in r :: o in options && o.name != ExtPrompt
    decreases |options|
  {
    if |options| == 0 then []
    else
      var rest := NonPrompts(options[..|options| - 1]);
      if options[|options| - 1].name == ExtPrompt then rest else rest + [options[|options| - 1]]
  }

  /** The options reordered so that the prompt arrives first. */
  function PromptsFirst(options: seq<CommandOption>): seq<CommandOption> {
    Prompts(options) + NonPrompts(options)
  }

  /** The reordering is a permutation. */
  lemma {:induction false} PromptsFirstPermutes(options: seq<CommandOption>)
    ensures multiset(PromptsFirst(options)) == multiset(options)
    decreases |options|
  {
    if |options| > 0 {
      var front := options[..|options| - 1];
      PromptsFirstPermutes(front);
      assert options == front + [options[|options| - 1]];
    }
  }

  lemma {:induction false} LastPromptKept(options: seq<CommandOption>)
    ensures LastValue(Prompts(options), ExtPrompt) == LastValue(options, ExtPrompt)
    decreases |options|
  {
    if |options| > 0 {
      LastPromptKept(options[..|options| - 1]);
      var r := Prompts(options);
      if options[|options| - 1].name == ExtPrompt {
        assert r[|r| - 1] == options[|options| - 1];
      } else {
        assert r == Prompts(options[..|options| - 1]);
      }
    }
  }

  lemma {:induction false} LastValueSkipsOthers(p: seq<CommandOption>, q: seq<CommandOption>, name: string)
    requires forall o | o in q :: o.name != name
    ensures LastValue(p + q, name) == LastValue(p, name)
    decreases |q|
  {
    if |q| > 0 {
      var q' := q[..|q| - 1];
      assert (p + q)[..|p + q| - 1] == p + q';
      assert (p + q)[|p + q| - 1] == q[|q| - 1];
      assert q[|q| - 1] in q;
      forall o | o in q' ensures o.name != name {
        var j :| 0 <= j < |q'| && q'[j] == o;
        assert q[j] == o;
      }
      LastValueSkipsOthers(p, q', name);
      var k := LastIndexNamed(p + q, name);
      assert k == LastIndexNamed(p + q', name);
      if 0 <= k {
        assert (p + q)[k] == (p + q')[k];
      }
    } else {
      assert p + q == p;
    }
  }

  lemma {:induction false} SuffixesSkipPrompts(options: seq<CommandOption>)
    ensures Suffixes(NonPrompts(options)) == Suffixes(options)
    decreases |options|
  {
    if |options| > 0 {
      var front := options[..|options| - 1];
      var last := options[|options| - 1];
      SuffixesSkipPrompts(front);
      var r := NonPrompts(options);
      if last.name != ExtPrompt {
        assert r[..|r| - 1] == NonPrompts(front);
      } else {
        assert PromptSuffix(last) == "";
      }
    }
  }

  lemma {:induction false} TrailingAfterPrompts(p: seq<CommandOption>, q: seq<CommandOption>)
    requires forall o | o in p :: o.name == ExtPrompt
    requires forall o | o in q :: o.name != ExtPrompt
    ensures TrailingSuffixes(p + q) == Suffixes(q)
    decreases |q|
  {
    if |q| == 0 {
      assert p + q == p;
      if |p| > 0 {
        assert p[|p| - 1] in p;
      }
    } else {
      var q' := q[..|q| - 1];
      assert (p + q)[..|p + q| - 1] == p + q';
      assert (p + q)[|p + q| - 1] == q[|q| - 1];
      assert q[|q| - 1] in q;
      TrailingAfterPrompts(p, q');
    }
  }

  /** The intended prompt is what the code as written produces once the
      prompt option is moved to the front, and moving it changes nothing
      about the intended prompt. */
  lemma IntendedIsPromptFirst(defaults: QueueItemOptions, options: seq<CommandOption>)
    requires AllExtWellTyped(options)
    ensures AllExtWellTyped(PromptsFirst(options))
    ensures IntendedExtPrompt(defaults, options) == ExtCommandItemAsWritten(defaults, PromptsFirst(options)).prompt
    ensures IntendedExtPrompt(defaults, PromptsFirst(options)) == IntendedExtPrompt(defaults, options)
  {
    var p := Prompts(options);
    var q := NonPrompts(options);
    var reordered := p + q;
    assert AllExtWellTyped(reordered) by {
      forall o | o in reordered ensures ExtWellTyped(o) {
        assert o in p || o in q;
      }
    }
    var base := StringArg(options, ExtPrompt, defaults.prompt);
    assert StringArg(reordered, ExtPrompt, defaults.prompt) == base by {
      LastValueSkipsOthers(p, q, ExtPrompt);
      LastPromptKept(options);
    }
    assert Suffixes(reordered) == Suffixes(options) by {
      SuffixesAppend(p, q);
      SuffixesOfPrompts(p);
      SuffixesSkipPrompts(options);
    }
    assert FoldExtOptions(defaults, reordered).prompt == base + Suffixes(options) by {
      ExtFoldPrompt(defaults, reordered);
      TrailingAfterPrompts(p, q);
      SuffixesSkipPrompts(options);
    }
  }

  lemma {:induction false} SuffixesAppend(p: seq<CommandOption>, q: seq<CommandOption>)
    ensures Suffixes(p + q) == Suffixes(p) + Suffixes(q)
    decreases |q|
  {
    if |q| == 0 {
      assert p + q == p;
    } else {
      var q' := q[..|q| - 1];
      assert (p + q)[..|p + q| - 1] == p + q';
      assert (p + q)[|p + q| - 1] == q[|q| - 1];
      SuffixesAppend(p, q');
      AppendAssoc(Suffixes(p), Suffixes(q'), PromptSuffix(q[|q| - 1]));
    }
  }

  lemma {:induction false} SuffixesOfPrompts(p: seq<CommandOption>)
    requires forall o | o in p :: o.name == ExtPrompt
    ensures Suffixes(p) == ""
    decreases |p|
  {
    if |p| > 0 {
      assert p[|p| - 1] in p;
      var front := p[..|p| - 1];
      forall o | o in front ensures o.name == ExtPrompt {
        var j :| 0 <= j < |front| && front[j] == o;
        assert p[j] == o;
      }
      SuffixesOfPrompts(front);
    }
  }
}
