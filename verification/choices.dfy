/** The capped choice lists: the extended command's embedding choices and
    the change-model menu. */
module Choices {
  import opened Optional
  import opened Discord
  import opened Components

  /** The distinct names of the loaded textual-inversion embeddings, in the
      order Go's map iteration happens to visit them (Go leaves that order
      unspecified, so it is an input here). */
  predicate DistinctNames(names: seq<string>) {
    forall i, j :: 0 <= i < j < |names| ==> names[i] != names[j]
  }

  /** The choice list of the `embeddings` option: one choice per loaded
      embedding, named and valued by it, appended until there are 25. */
  method EmbeddingChoices(loaded: seq<string>) returns (choices: seq<Choice>)
    requires DistinctNames(loaded)
    ensures |choices| == Min(MaxChoices, |loaded|)
    ensures forall k :: 0 <= k < |choices| ==> choices[k] == Choice(loaded[k], loaded[k])
    ensures forall i, j :: 0 <= i < j < |choices| ==> choices[i].name != choices[j].name
  {
    choices := [];
    var i := 0;
    while i < |loaded|
      invariant 0 <= i <= |loaded|
      invariant i < MaxChoices
      invariant |choices| == i
      invariant forall k :: 0 <= k < i ==> choices[k] == Choice(loaded[k], loaded[k])
    {
      choices := choices + [Choice(loaded[i], loaded[i])];
      if |choices| == MaxChoices {
        break;
      }
      i := i + 1;
    }
  }

  /** The `embeddings` option is added only when some embedding is loaded. */
  method EmbeddingsOption(loaded: seq<string>) returns (option: Option<seq<Choice>>)
    requires DistinctNames(loaded)
    ensures option.Some? <==> 0 < |loaded|
    ensures option.Some? ==> 0 < |option.value| <= MaxChoices
    ensures option.Some? ==> forall k :: 0 <= k < |option.value| ==> option.value[k].name in loaded
  {
    if 0 < |loaded| {
      var choices := EmbeddingChoices(loaded);
      option := Some(choices);
    } else {
      option := None;
    }
  }

  /** A model title as a menu option. */
  function ModelOption(title: string): MenuOption {
    MenuOption(title, title, false)
  }

  /** `changeModelMessageComponents` as written: the options slice is
      allocated with one zero entry per model, so the check for 25 entries
      looks at the allocated length. With exactly 25 models it stops after
      the first; with more it never stops. */
  method ChangeModelOptionsAsWritten(models: seq<string>) returns (options: seq<MenuOption>)
    ensures |options| == |models|
    ensures |models| != MaxChoices ==> forall k :: 0 <= k < |models| ==> options[k] == ModelOption(models[k])
    ensures |models| == MaxChoices ==>
              options[0] == ModelOption(models[0]) && forall k :: 1 <= k < MaxChoices ==> options[k] == Zero
  {
    options := seq(|models|, _ => Zero);
    var i := 0;
    while i < |models|
      invariant 0 <= i <= |models|
      invariant |options| == |models|
      invariant |models| == MaxChoices ==> i == 0
      invariant forall k :: 0 <= k < i ==> options[k] == ModelOption(models[k])
      invariant forall k :: i <= k < |models| ==> options[k] == Zero
    {
      options := options[i := ModelOption(models[i])];
      if |options| == MaxChoices {
        break;
      }
      i := i + 1;
    }
  }

  /** The menu as evidently intended: the first 25 models at most, each
      filled in. */
  method ChangeModelOptions(models: seq<string>) returns (options: seq<MenuOption>)
    ensures |options| == Min(MaxChoices, |models|)
    ensures forall k :: 0 <= k < |options| ==> options[k] == ModelOption(models[k])
  {
    options := [];
    var i := 0;
    while i < |models|
      invariant 0 <= i <= |models|
      invariant i < MaxChoices
      invariant |options| == i
      invariant forall k :: 0 <= k < i ==> options[k] == ModelOption(models[k])
    {
      options := options + [ModelOption(models[i])];
      if |options| == MaxChoices {
        break;
      }
      i := i + 1;
    }
  }

  /** `changeModelMessageComponents` as written: one menu whose choices the
      handler decodes as model changes. With exactly 25 models every option
      after the first is blank, and choosing one asks for the model "". */
  method ChangeModelMessageComponents(models: seq<string>) returns (menu: SelectMenu)
    ensures menu.customID == ChangeModelID && menu.minValues == 1 && menu.maxValues == 1
    ensures |menu.options| == |models|
    ensures |models| != MaxChoices ==> forall k :: 0 <= k < |menu.options| ==>
              Decode(Component(menu.customID, [menu.options[k].value])) == ChangeModel(models[k])
    ensures |models| == MaxChoices ==>
              && Decode(Component(menu.customID, [menu.options[0].value])) == ChangeModel(models[0])
              && forall k :: 1 <= k < |menu.options| ==> Decode(Component(menu.customID, [menu.options[k].value])) == ChangeModel("")
  {
    var options := ChangeModelOptionsAsWritten(models);
    menu := SelectMenu(ChangeModelID, 1, 1, options);
    CustomIDsDiffer();
  }

  /** Corrected `changeModelMessageComponents`: at most 25 options, and
      choosing option k asks for model k. */
  method ChangeModelMessageComponentsCorrected(models: seq<string>) returns (menu: SelectMenu)
    ensures menu.customID == ChangeModelID && menu.minValues == 1 && menu.maxValues == 1
    ensures |menu.options| == Min(MaxChoices, |models|)
    ensures forall k :: 0 <= k < |menu.options| ==>
              Decode(Component(menu.customID, [menu.options[k].value])) == ChangeModel(models[k])
  {
    var options := ChangeModelOptions(models);
    menu := SelectMenu(ChangeModelID, 1, 1, options);
    CustomIDsDiffer();
  }

  /** With 25 models, the menu as written offers one model and 24 blank
      entries; the intended menu offers all 25. */
  method TwentyFiveModelsWitness(models: seq<string>) returns (asWritten: seq<MenuOption>, intended: seq<MenuOption>)
    requires |models| == MaxChoices
    ensures |asWritten| == MaxChoices && asWritten[0] == ModelOption(models[0]) && asWritten[1] == Zero
    ensures |intended| == MaxChoices && intended[1] == ModelOption(models[1])
  {
    asWritten := ChangeModelOptionsAsWritten(models);
    intended := ChangeModelOptions(models);
  }

  /** With more than 25 models, the menu as written exceeds Discord's limit. */
  method ManyModelsWitness(models: seq<string>) returns (asWritten: seq<MenuOption>, intended: seq<MenuOption>)
    requires |models| > MaxChoices
    ensures |asWritten| > MaxChoices
    ensures |intended| == MaxChoices
  {
    asWritten := ChangeModelOptionsAsWritten(models);
    intended := ChangeModelOptions(models);
  }
}
