/** What each configuration request does, and when it is refused. */
module ConfigEffects {
  import opened Options
  import opened SessionConfig

  /** What the client sees of an option: its value and the values on offer. */
  predicate Shows(s: Session, id: string, value: string, values: seq<string>) {
    FindOption(s.options, id) == Some(ConfigOption(id, value, values))
  }

  predicate ShowsNone(s: Session, id: string) {
    FindOption(s.options, id).None?
  }

  predicate SameOption(s: Session, s': Session, id: string) {
    FindOption(s.options, id) == FindOption(s'.options, id)
  }

  function InfoOf(s: Session, model: string): Option<ModelInfo> {
    FindInfo(s.infos, model)
  }

  /** The modes of a session: the four that are always there, `auto` and the bypass on condition. */
  ghost predicate ModesFor(env: Env, info: Option<ModelInfo>, modes: seq<string>) {
    && (forall m :: m in modes <==>
          || m in ["default", "acceptEdits", "plan", "dontAsk"]
          || (m == "auto" && info.Some? && info.value.supportsAutoMode)
          || (m == "bypassPermissions" && env.allowBypass))
  }

  lemma BuiltModes(env: Env, info: Option<ModelInfo>)
    ensures ModesFor(env, info, BuildAvailableModes(env, info))
  {
  }

  lemma {:induction false} WithValueFinds(options: seq<ConfigOption>, id: string, value: string, other: string)
    ensures FindOption(WithValue(options, id, value), other) ==
            match FindOption(options, other)
            case None => None
            case Some(o) => Some(if other == id then o.(currentValue := value) else o)
    ensures |WithValue(options, id, value)| == |options|
  {
    if options != [] {
      WithValueFinds(options[1..], id, value, other);
      assert WithValue(options, id, value)[1..] == WithValue(options[1..], id, value);
    }
  }

  // ---- Modes ----

  /** What a mode that was set leaves: it is current, shown, and known to the client; nothing else
      changes. */
  predicate ModeTookHold(s: Session, s': Session, mode: string) {
    && s'.modes == Modes(mode, s.modes.available) && s'.clientMode == mode
    && Shows(s', "mode", mode, s.modes.available) && SameOption(s, s', "model") && SameOption(s, s', "effort")
    && |s'.options| == |s.options|
    && s'.models == s.models && s'.infos == s.infos && s'.sdkEffort == s.sdkEffort
  }

  lemma ModePatch(env: Env, s: Session, mode: string)
    requires Inv(env, s)
    ensures ModeTookHold(s, ApplyMode(s, mode).(clientMode := mode), mode)
    ensures ModeTookHold(s, ApplyMode(s.(clientMode := mode), mode), mode)
  {
    hide SupportedLevels, ChooseEffort, FindOption;
    BuiltOptions(s.modes, s.models, s.infos, EffortOf(s.options), "mode");
    WithValueFinds(s.options, "mode", mode, "mode");
    WithValueFinds(s.options, "mode", mode, "model");
    WithValueFinds(s.options, "mode", mode, "effort");
  }

  /** A mode is accepted exactly when it is one of the known modes and offered. */
  lemma SetModeExactly(env: Env, s: Session, mode: string)
    requires Inv(env, s)
    ensures var s' := Handle(env, s, SetSessionMode(mode));
            if KnownMode(mode) && mode in s.modes.available then ModeTookHold(s, s', mode) else s' == s
  {
    hide Inv, FindOption, WithValue, ModeTookHold;
    ModePatch(env, s, mode);
  }

  lemma SetModeOptionExactly(env: Env, s: Session, mode: string)
    requires Inv(env, s)
    ensures var s' := Handle(env, s, SetConfigOption("mode", mode));
            if KnownMode(mode) && mode in s.modes.available then ModeTookHold(s, s', mode) else s' == s
  {
    hide FindOption, WithValue, ModeTookHold, SupportedLevels, ChooseEffort;
    BuiltOptions(s.modes, s.models, s.infos, EffortOf(s.options), "mode");
    ModePatch(env, s, mode);
  }

  /** Every mode that a session offers is a known one. */
  lemma OfferedModesAreKnown(env: Env, s: Session, mode: string)
    requires Inv(env, s) && mode in s.modes.available
    ensures KnownMode(mode)
  {
    BuiltModes(env, FindInfo(s.infos, s.models.currentModelId));
  }

  /** The answer to the plan dialog takes hold exactly when it is one of the four ways on and offered;
      entering plan mode always does. */
  lemma PlanModeExactly(env: Env, s: Session, selected: string)
    requires Inv(env, s)
    ensures var s' := Handle(env, s, ExitPlanMode(selected));
            if selected in ["default", "acceptEdits", "auto", "bypassPermissions"] && selected in s.modes.available
            then ModeTookHold(s, s', selected) else s' == s
    ensures ModeTookHold(s, Handle(env, s, EnterPlanMode), "plan")
  {
    hide Inv, FindOption, WithValue, ModeTookHold;
    ModePatch(env, s, selected);
    ModePatch(env, s, "plan");
  }

  // ---- Effort ----

  /** An effort takes hold exactly when the current model offers it: it is shown and sent, and nothing else
      changes. */
  lemma SetEffortExactly(env: Env, s: Session, level: string)
    requires Inv(env, s)
    ensures var s' := Handle(env, s, SetConfigOption("effort", level));
            var info := InfoOf(s, s.models.currentModelId);
            if info.Some? && info.value.supportsEffort && level in info.value.effortLevels then
              && Shows(s', "effort", level, info.value.effortLevels) && s'.sdkEffort == Some(level)
              && SameOption(s, s', "mode") && SameOption(s, s', "model") && |s'.options| == |s.options|
              && s'.modes == s.modes && s'.models == s.models && s'.infos == s.infos && s'.clientMode == s.clientMode
            else s' == s
  {
    hide FindOption, ChooseEffort, WithValue;
    BuiltOptions(s.modes, s.models, s.infos, EffortOf(s.options), "effort");
    WithValueFinds(s.options, "effort", level, "mode");
    WithValueFinds(s.options, "effort", level, "model");
    WithValueFinds(s.options, "effort", level, "effort");
  }

  // ---- Models ----

  /** What a model that was set leaves: it is current and shown; the modes are those it offers, the mode stays
      if it is among them and otherwise is the default, of which the client is told; the effort stays if
      the model offers it and otherwise is its preferred one, and the SDK is told of a change. */
  ghost predicate ModelTookHold(env: Env, s: Session, s': Session, model: string) {
    var info := InfoOf(s, model);
    var levels := if info.Some? && info.value.supportsEffort then info.value.effortLevels else [];
    var effort := EffortOf(s.options);
    && s'.models == Models(model, s.models.available) && s'.infos == s.infos
    && Shows(s', "model", model, s.models.available)
    && ModesFor(env, info, s'.modes.available) && Shows(s', "mode", s'.modes.currentModeId, s'.modes.available)
    && (if s.modes.currentModeId in s'.modes.available then
          s'.modes.currentModeId == s.modes.currentModeId && s'.clientMode == s.clientMode
        else s'.modes.currentModeId == "default" && s'.clientMode == "default")
    && (if levels == [] then ShowsNone(s', "effort") && s'.sdkEffort == None
        else
          && s'.sdkEffort.Some? && Shows(s', "effort", s'.sdkEffort.value, levels) && s'.sdkEffort.value in levels
          && (if effort.Some? && effort.value != "" && effort.value in levels then s'.sdkEffort == effort
              else if "xhigh" in levels then s'.sdkEffort == Some("xhigh")
              else if "high" in levels then s'.sdkEffort == Some("high")
              else s'.sdkEffort == Some(levels[0])))
  }

  lemma ModelPatch(env: Env, s: Session, model: string)
    requires Inv(env, s)
    ensures ModelTookHold(env, s, ApplyModel(env, s, model), model)
  {
    hide FindOption, WithValue, BuildConfigOptions, BuildAvailableModes;
    var s' := ApplyModel(env, s, model);
    BuiltModes(env, FindInfo(s.infos, model));
    BuiltOptions(s'.modes, s'.models, s'.infos, EffortOf(s.options), "mode");
    BuiltOptions(s'.modes, s'.models, s'.infos, EffortOf(s.options), "model");
    BuiltOptions(s'.modes, s'.models, s'.infos, EffortOf(s.options), "effort");
  }

  /** A model option request takes hold exactly when the requested name is resolved to an offered model. */
  lemma SetModelOptionExactly(env: Env, s: Session, value: string)
    requires Inv(env, s)
    ensures var s' := Handle(env, s, SetConfigOption("model", value));
            var picked := env.pickModel(s.models.available, value);
            if picked.Some? && picked.value in s.models.available then ModelTookHold(env, s, s', picked.value) else s' == s
  {
    hide FindOption, WithValue, ModelTookHold, SupportedLevels, ChooseEffort, ApplyModel;
    BuiltOptions(s.modes, s.models, s.infos, EffortOf(s.options), "model");
    if env.pickModel(s.models.available, value).Some? { ModelPatch(env, s, env.pickModel(s.models.available, value).value); }
  }

  lemma SetSessionModelExactly(env: Env, s: Session, model: string)
    requires Inv(env, s)
    ensures ModelTookHold(env, s, Handle(env, s, SetSessionModel(model)), env.resolveModel(ValuesOf(s.infos), model))
  {
    hide Inv, FindOption, WithValue, ModelTookHold, ApplyModel;
    ModelPatch(env, s, env.resolveModel(ValuesOf(s.infos), model));
  }

  // ---- Refusals ----

  /** There is no other option; a request for one changes nothing. */
  lemma UnknownOptionIsRefused(env: Env, s: Session, id: string, value: string)
    requires Inv(env, s) && id !in ["mode", "model", "effort"]
    ensures Handle(env, s, SetConfigOption(id, value)) == s
  {
    hide FindOption, WithValue, SupportedLevels, ChooseEffort;
    BuiltOptions(s.modes, s.models, s.infos, EffortOf(s.options), id);
  }

  // ---- The first session ----

  /** A new session: the asked mode if the model offers it, the asked effort if the model offers it, and
      everything shown and sent accordingly. */
  lemma CreatedExactly(env: Env, models: Models, infos: seq<ModelInfo>, permissionMode: string, effort: Option<string>)
    ensures var s := Create(env, models, infos, permissionMode, effort);
            var info := FindInfo(infos, models.currentModelId);
            var levels := if info.Some? && info.value.supportsEffort then info.value.effortLevels else [];
            && s.models == models && s.infos == infos && Shows(s, "model", models.currentModelId, models.available)
            && ModesFor(env, info, s.modes.available) && Shows(s, "mode", s.modes.currentModeId, s.modes.available)
            && s.modes.currentModeId == (if permissionMode in s.modes.available then permissionMode else "default")
            && (levels == [] ==> ShowsNone(s, "effort") && s.sdkEffort == None)
            && (levels != [] ==> s.sdkEffort.Some? && Shows(s, "effort", s.sdkEffort.value, levels))
            && (levels != [] && effort.Some? && effort.value != "" && effort.value in levels ==> s.sdkEffort == effort)
  {
    hide FindOption, WithValue, BuildConfigOptions, BuildAvailableModes;
    var s := Create(env, models, infos, permissionMode, effort);
    BuiltModes(env, FindInfo(infos, models.currentModelId));
    BuiltOptions(s.modes, models, infos, effort, "mode");
    BuiltOptions(s.modes, models, infos, effort, "model");
    BuiltOptions(s.modes, models, infos, effort, "effort");
  }

  // ---- Looking up ----

  /** The first entry that fits is the one that counts, for models and for options. */
  lemma {:induction false} InfoExactly(infos: seq<ModelInfo>, value: string, k: nat)
    ensures k < |infos| && infos[k].value == value && (forall j :: 0 <= j < k ==> infos[j].value != value)
            ==> FindInfo(infos, value) == Some(infos[k])
    ensures (forall j :: 0 <= j < |infos| ==> infos[j].value != value) ==> FindInfo(infos, value) == None
  {
    if infos != [] && infos[0].value != value { InfoExactly(infos[1..], value, if k > 0 then k - 1 else |infos|); }
  }

  lemma {:induction false} OptionExactly(options: seq<ConfigOption>, id: string, k: nat)
    ensures k < |options| && options[k].id == id && (forall j :: 0 <= j < k ==> options[j].id != id)
            ==> FindOption(options, id) == Some(options[k])
    ensures (forall j :: 0 <= j < |options| ==> options[j].id != id) ==> FindOption(options, id) == None
  {
    if options != [] && options[0].id != id { OptionExactly(options[1..], id, if k > 0 then k - 1 else |options|); }
  }
}
