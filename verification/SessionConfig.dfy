/**
 Session configuration: the option list is patched request by request, and must always be what a
 rebuild from the session's modes, models and effort would give.
 */
module SessionConfig {
  import opened Options

  /** `""` stands for itself: a level that is a string but counts as absent. */
  datatype ModelInfo = ModelInfo(value: string, supportsAutoMode: bool, supportsEffort: bool, effortLevels: seq<string>)
  datatype Modes = Modes(currentModeId: string, available: seq<string>)
  datatype Models = Models(currentModelId: string, available: seq<string>)
  datatype ConfigOption = ConfigOption(id: string, currentValue: string, values: seq<string>)

  /** What the code takes from its environment: whether bypassing permissions is allowed, and the
      matching of a requested model name, with its provider prefix and aliases, against the offered
      option values and against the known models. */
  datatype Env = Env(
    allowBypass: bool,
    pickModel: (seq<string>, string) -> Option<string>,
    resolveModel: (seq<string>, string) -> string)

  // ---- Building ----

  function FindInfo(infos: seq<ModelInfo>, value: string): Option<ModelInfo> {
    if infos == [] then None else if infos[0].value == value then Some(infos[0]) else FindInfo(infos[1..], value)
  }

  function BuildAvailableModes(env: Env, info: Option<ModelInfo>): (modes: seq<string>)
    ensures "default" in modes && "plan" in modes
    ensures "auto" in modes <==> info.Some? && info.value.supportsAutoMode
    ensures "bypassPermissions" in modes <==> env.allowBypass
  {
    (if info.Some? && info.value.supportsAutoMode then ["auto"] else [])
    + ["default", "acceptEdits", "plan", "dontAsk"]
    + (if env.allowBypass then ["bypassPermissions"] else [])
  }

  function SupportedLevels(infos: seq<ModelInfo>, model: string): seq<string> {
    match FindInfo(infos, model)
    case None => []
    case Some(info) => if info.supportsEffort then info.effortLevels else []
  }

  function DefaultEffort(levels: seq<string>): string
    requires levels != []
  {
    if "xhigh" in levels then "xhigh" else if "high" in levels then "high" else levels[0]
  }

  function ChooseEffort(levels: seq<string>, current: Option<string>): string
    requires levels != []
  {
    if current.Some? && current.value != "" && current.value in levels then current.value else DefaultEffort(levels)
  }

  function BuildConfigOptions(modes: Modes, models: Models, infos: seq<ModelInfo>, effort: Option<string>): seq<ConfigOption> {
    var levels := SupportedLevels(infos, models.currentModelId);
    [ConfigOption("mode", modes.currentModeId, modes.available), ConfigOption("model", models.currentModelId, models.available)]
    + if levels == [] then [] else [ConfigOption("effort", ChooseEffort(levels, effort), levels)]
  }

  function FindOption(options: seq<ConfigOption>, id: string): Option<ConfigOption> {
    if options == [] then None else if options[0].id == id then Some(options[0]) else FindOption(options[1..], id)
  }

  function EffortOf(options: seq<ConfigOption>): Option<string> {
    match FindOption(options, "effort")
    case None => None
    case Some(o) => Some(o.currentValue)
  }

  function WithValue(options: seq<ConfigOption>, id: string, value: string): seq<ConfigOption> {
    seq(|options|, i requires 0 <= i < |options| => if options[i].id == id then options[i].(currentValue := value) else options[i])
  }

  // ---- The session as a value ----

  /** `sdkEffort` is the effort last sent to the SDK; `clientMode` is the mode the client last set
      itself or was told. */
  datatype Session = Session(
    modes: Modes, models: Models, infos: seq<ModelInfo>, options: seq<ConfigOption>,
    sdkEffort: Option<string>, clientMode: string)

  function Create(env: Env, models: Models, infos: seq<ModelInfo>, permissionMode: string, effort: Option<string>): Session {
    var available := BuildAvailableModes(env, FindInfo(infos, models.currentModelId));
    var mode := if permissionMode in available then permissionMode else "default";
    var modes := Modes(mode, available);
    var options := BuildConfigOptions(modes, models, infos, effort);
    Session(modes, models, infos, options, EffortOf(options), mode)
  }

  function ApplyMode(s: Session, mode: string): Session {
    s.(modes := s.modes.(currentModeId := mode), options := WithValue(s.options, "mode", mode))
  }

  function ApplyModel(env: Env, s: Session, model: string): Session {
    var available := BuildAvailableModes(env, FindInfo(s.infos, model));
    var models := s.models.(currentModelId := model);
    var downgraded := s.modes.currentModeId !in available;
    var modes := Modes(if downgraded then "default" else s.modes.currentModeId, available);
    var options := BuildConfigOptions(modes, models, s.infos, EffortOf(s.options));
    s.(models := models, modes := modes, options := options,
       sdkEffort := if EffortOf(options) != EffortOf(s.options) then EffortOf(options) else s.sdkEffort,
       clientMode := if downgraded then "default" else s.clientMode)
  }

  function ApplyEffort(s: Session, value: string): Session {
    s.(options := WithValue(s.options, "effort", value), sdkEffort := Some(value))
  }

  predicate KnownMode(mode: string) {
    mode in ["auto", "default", "acceptEdits", "bypassPermissions", "dontAsk", "plan"]
  }

  datatype Request =
    | SetConfigOption(id: string, value: string)
    | SetSessionMode(mode: string)
    | SetSessionModel(model: string)
    | ExitPlanMode(selected: string)
    | EnterPlanMode

  function ResolveValue(env: Env, option: ConfigOption, value: string): Option<string> {
    if option.id != "model" then if value in option.values then Some(value) else None
    else
      var picked := env.pickModel(option.values, value);
      if picked.Some? && picked.value in option.values then picked else None
  }

  function SetOption(env: Env, s: Session, id: string, value: string): Session {
    match FindOption(s.options, id)
    case None => s
    case Some(option) =>
      match ResolveValue(env, option, value)
      case None => s
      case Some(resolved) =>
        if id == "mode" then
          if KnownMode(resolved) && resolved in s.modes.available then ApplyMode(s, resolved).(clientMode := resolved) else s
        else if id == "model" then ApplyModel(env, s, resolved)
        else if id == "effort" then ApplyEffort(s, resolved)
        else s.(options := WithValue(s.options, id, resolved))
  }

  /** A refused request leaves the session as it is. */
  function Handle(env: Env, s: Session, r: Request): Session {
    match r
    case SetConfigOption(id, value) => SetOption(env, s, id, value)
    case SetSessionMode(mode) =>
      if KnownMode(mode) && mode in s.modes.available then ApplyMode(s, mode).(clientMode := mode) else s
    case SetSessionModel(model) => ApplyModel(env, s, env.resolveModel(ValuesOf(s.infos), model))
    case ExitPlanMode(selected) =>
      if selected in ["default", "acceptEdits", "auto", "bypassPermissions"] && selected in s.modes.available
      then ApplyMode(s.(clientMode := selected), selected) else s
    case EnterPlanMode => ApplyMode(s.(clientMode := "plan"), "plan")
  }

  function ValuesOf(infos: seq<ModelInfo>): seq<string> {
    seq(|infos|, i requires 0 <= i < |infos| => infos[i].value)
  }

  function HandleAll(env: Env, s: Session, rs: seq<Request>): Session {
    if rs == [] then s else Handle(env, HandleAll(env, s, rs[..|rs| - 1]), rs[|rs| - 1])
  }

  // ---- The session object ----

  class ConfigSession {
    const env: Env
    var modes: Modes
    var models: Models
    var infos: seq<ModelInfo>
    var options: seq<ConfigOption>
    var sdkEffort: Option<string>
    var clientMode: string

    ghost function View(): Session
      reads this
    {
      Session(modes, models, infos, options, sdkEffort, clientMode)
    }

    constructor (env: Env, models: Models, infos: seq<ModelInfo>, permissionMode: string, effort: Option<string>)
      ensures this.env == env && View() == Create(env, models, infos, permissionMode, effort)
    {
      var available := BuildAvailableModes(env, FindInfo(infos, models.currentModelId));
      var effectiveMode := permissionMode;
      if effectiveMode !in available {
        effectiveMode := "default";
      }
      var modes := Modes(effectiveMode, available);
      var options := BuildConfigOptions(modes, models, infos, effort);
      this.env, this.modes, this.models, this.infos, this.options := env, modes, models, infos, options;
      sdkEffort, clientMode := EffortOf(options), effectiveMode;
    }

    method ApplyConfigOptionValue(id: string, value: string)
      modifies this
      ensures View() == if id == "mode" then ApplyMode(old(View()), value)
                        else if id == "model" then ApplyModel(env, old(View()), value)
                        else if id == "effort" then ApplyEffort(old(View()), value)
                        else old(View()).(options := WithValue(old(options), id, value))
    {
      if id == "mode" {
        modes := modes.(currentModeId := value);
        options := WithValue(options, id, value);
      } else if id == "model" {
        models := models.(currentModelId := value);
        var newAvailableModes := BuildAvailableModes(env, FindInfo(infos, value));
        var modeDowngraded := false;
        if modes.currentModeId !in newAvailableModes {
          modes := Modes("default", newAvailableModes);
          modeDowngraded := true;
        } else {
          modes := modes.(available := newAvailableModes);
        }
        var currentEffort := EffortOf(options);
        options := BuildConfigOptions(modes, models, infos, currentEffort);
        var newEffort := EffortOf(options);
        if newEffort != currentEffort {
          sdkEffort := newEffort;
        }
        if modeDowngraded {
          clientMode := "default";
        }
      } else {
        options := WithValue(options, id, value);
        if id == "effort" {
          sdkEffort := Some(value);
        }
      }
    }

    method SetSessionConfigOption(id: string, value: string)
      modifies this
      ensures View() == SetOption(env, old(View()), id, value)
    {
      var option := FindOption(options, id);
      if option.None? {
        return;
      }
      var resolved := ResolveValue(env, option.value, value);
      if resolved.None? {
        return;
      }
      if id == "mode" {
        if !KnownMode(resolved.value) || resolved.value !in modes.available {
          return;
        }
        clientMode := resolved.value;
      }
      ApplyConfigOptionValue(id, resolved.value);
    }

    method SetSessionMode(mode: string)
      modifies this
      ensures View() == Handle(env, old(View()), Request.SetSessionMode(mode))
    {
      if !KnownMode(mode) || mode !in modes.available {
        return;
      }
      clientMode := mode;
      ApplyConfigOptionValue("mode", mode);
    }

    method SetSessionModel(model: string)
      modifies this
      ensures View() == Handle(env, old(View()), Request.SetSessionModel(model))
    {
      ApplyConfigOptionValue("model", env.resolveModel(ValuesOf(infos), model));
    }

    /** The user's answer to the plan dialog; only offered modes count. */
    method ExitPlanMode(selected: string)
      modifies this
      ensures View() == Handle(env, old(View()), Request.ExitPlanMode(selected))
    {
      if selected in modes.available
         && (selected == "default" || selected == "acceptEdits" || selected == "auto" || selected == "bypassPermissions") {
        clientMode := selected;
        ApplyConfigOptionValue("mode", selected);
      }
    }

    method EnterPlanMode()
      modifies this
      ensures View() == Handle(env, old(View()), Request.EnterPlanMode)
    {
      clientMode := "plan";
      ApplyConfigOptionValue("mode", "plan");
    }
  }

  // ---- Incremental equals rebuild ----

  ghost predicate Inv(env: Env, s: Session) {
    && s.options == BuildConfigOptions(s.modes, s.models, s.infos, EffortOf(s.options))
    && s.modes.available == BuildAvailableModes(env, FindInfo(s.infos, s.models.currentModelId))
    && s.modes.currentModeId in s.modes.available
    && s.sdkEffort == EffortOf(s.options)
    && s.clientMode == s.modes.currentModeId
  }

  lemma FindAmongThree(a: ConfigOption, b: ConfigOption, rest: seq<ConfigOption>, id: string)
    requires |rest| <= 1
    ensures FindOption([a, b] + rest, id) ==
            if a.id == id then Some(a) else if b.id == id then Some(b)
            else if rest != [] && rest[0].id == id then Some(rest[0]) else None
  {
    var options := [a, b] + rest;
    assert rest != [] ==> rest[1..] == [];
    assert FindOption(rest, id) == if rest != [] && rest[0].id == id then Some(rest[0]) else None;
    assert options[1..] == [b] + rest && ([b] + rest)[1..] == rest;
    assert FindOption([b] + rest, id) == if b.id == id then Some(b) else FindOption(rest, id);
  }

  lemma BuiltOptions(modes: Modes, models: Models, infos: seq<ModelInfo>, effort: Option<string>, id: string)
    ensures var levels := SupportedLevels(infos, models.currentModelId);
            FindOption(BuildConfigOptions(modes, models, infos, effort), id) ==
            if id == "mode" then Some(ConfigOption("mode", modes.currentModeId, modes.available))
            else if id == "model" then Some(ConfigOption("model", models.currentModelId, models.available))
            else if id == "effort" && levels != [] then Some(ConfigOption("effort", ChooseEffort(levels, effort), levels))
            else None
  {
    var levels := SupportedLevels(infos, models.currentModelId);
    FindAmongThree(ConfigOption("mode", modes.currentModeId, modes.available),
                   ConfigOption("model", models.currentModelId, models.available),
                   if levels == [] then [] else [ConfigOption("effort", ChooseEffort(levels, effort), levels)], id);
  }

  /** A rebuild that starts from the effort it chose chooses it again. */
  lemma RebuildIsStable(modes: Modes, models: Models, infos: seq<ModelInfo>, effort: Option<string>)
    ensures var options := BuildConfigOptions(modes, models, infos, effort);
            BuildConfigOptions(modes, models, infos, EffortOf(options)) == options
  {
    BuiltOptions(modes, models, infos, effort, "effort");
  }

  lemma ModeChangeKeepsInv(env: Env, s: Session, mode: string)
    requires Inv(env, s) && mode in s.modes.available
    ensures Inv(env, ApplyMode(s, mode).(clientMode := mode))
  {
    hide SupportedLevels, ChooseEffort, FindOption;
    var s' := ApplyMode(s, mode);
    BuiltOptions(s.modes, s.models, s.infos, EffortOf(s.options), "effort");
    BuiltOptions(s'.modes, s.models, s.infos, EffortOf(s.options), "effort");
    assert s'.options == BuildConfigOptions(s'.modes, s.models, s.infos, EffortOf(s.options));
  }

  lemma ModelChangeKeepsInv(env: Env, s: Session, model: string)
    requires Inv(env, s)
    ensures Inv(env, ApplyModel(env, s, model))
  {
    var s' := ApplyModel(env, s, model);
    RebuildIsStable(s'.modes, s'.models, s'.infos, EffortOf(s.options));
  }

  /** Exactly when a patched effort is what a rebuild would keep. */
  lemma EffortChange(env: Env, s: Session, value: string)
    requires Inv(env, s)
    requires value in SupportedLevels(s.infos, s.models.currentModelId)
    ensures Inv(env, ApplyEffort(s, value)) <==> value != "" || DefaultEffort(SupportedLevels(s.infos, s.models.currentModelId)) == ""
  {
    hide SupportedLevels, FindOption;
    var levels := SupportedLevels(s.infos, s.models.currentModelId);
    var s' := ApplyEffort(s, value);
    var mode, model := ConfigOption("mode", s.modes.currentModeId, s.modes.available),
      ConfigOption("model", s.models.currentModelId, s.models.available);
    var patched, chosen := ConfigOption("effort", value, levels), ConfigOption("effort", ChooseEffort(levels, Some(value)), levels);
    assert s'.options == [mode, model] + [patched];
    FindAmongThree(mode, model, [patched], "effort");
    assert BuildConfigOptions(s.modes, s.models, s.infos, Some(value)) == [mode, model] + [chosen];
    assert [mode, model] + [patched] == [mode, model] + [chosen] <==> patched == chosen by {
      assert ([mode, model] + [patched])[2] == patched && ([mode, model] + [chosen])[2] == chosen;
    }
  }

  /** The request picks a level that is the empty string although a rebuild would choose another. */
  predicate SelectsUnnamed(s: Session, r: Request) {
    var levels := SupportedLevels(s.infos, s.models.currentModelId);
    r == SetConfigOption("effort", "") && "" in levels && DefaultEffort(levels) != ""
  }

  /** The exact law of one request, accepted or refused. */
  lemma RequestKeepsInv(env: Env, s: Session, r: Request)
    requires Inv(env, s)
    ensures Inv(env, Handle(env, s, r)) <==> !SelectsUnnamed(s, r)
    ensures Handle(env, s, r).infos == s.infos
  {
    hide BuildConfigOptions, ResolveValue, KnownMode, Inv, EffortOf, WithValue, SupportedLevels;
    match r
    case SetConfigOption(id, value) => SetOptionKeepsInv(env, s, id, value);
    case SetSessionMode(mode) => if mode in s.modes.available { ModeChangeKeepsInv(env, s, mode); }
    case SetSessionModel(model) => ModelChangeKeepsInv(env, s, env.resolveModel(ValuesOf(s.infos), model));
    case ExitPlanMode(selected) => if selected in s.modes.available { ExitedMode(s, selected); ModeChangeKeepsInv(env, s, selected); }
    case EnterPlanMode => ExitedMode(s, "plan"); PlanIsOffered(env, s); ModeChangeKeepsInv(env, s, "plan");
  }

  lemma ExitedMode(s: Session, mode: string)
    ensures ApplyMode(s.(clientMode := mode), mode) == ApplyMode(s, mode).(clientMode := mode)
  {
  }

  lemma PlanIsOffered(env: Env, s: Session)
    requires Inv(env, s)
    ensures "plan" in s.modes.available
  {
  }

  lemma ResolvedIsOffered(env: Env, option: ConfigOption, value: string)
    ensures ResolveValue(env, option, value).Some? ==> ResolveValue(env, option, value).value in option.values
    ensures option.id != "model" ==> ResolveValue(env, option, value) == if value in option.values then Some(value) else None
  {}

  lemma SetOptionKeepsInv(env: Env, s: Session, id: string, value: string)
    requires Inv(env, s)
    ensures Inv(env, SetOption(env, s, id, value)) <==> !SelectsUnnamed(s, SetConfigOption(id, value))
    ensures SetOption(env, s, id, value).infos == s.infos
  {
    hide BuildConfigOptions, ResolveValue, KnownMode, Inv, EffortOf, WithValue, SupportedLevels, DefaultEffort;
    assert s.options == BuildConfigOptions(s.modes, s.models, s.infos, EffortOf(s.options)) by { InvMeans(env, s); }
    BuiltOptions(s.modes, s.models, s.infos, EffortOf(s.options), id);
    var option := FindOption(s.options, id);
    if option.Some? {
      ResolvedIsOffered(env, option.value, value);
      if ResolveValue(env, option.value, value).Some? {
        var resolved := ResolveValue(env, option.value, value).value;
        if id == "mode" {
          if resolved in s.modes.available { ModeChangeKeepsInv(env, s, resolved); }
        } else if id == "model" {
          ModelChangeKeepsInv(env, s, resolved);
        } else {
          EffortChange(env, s, resolved);
        }
      }
    }
  }

  lemma InvMeans(env: Env, s: Session)
    requires Inv(env, s)
    ensures s.options == BuildConfigOptions(s.modes, s.models, s.infos, EffortOf(s.options))
  {}

  lemma CreateInv(env: Env, models: Models, infos: seq<ModelInfo>, permissionMode: string, effort: Option<string>)
    ensures Inv(env, Create(env, models, infos, permissionMode, effort))
  {
    var s := Create(env, models, infos, permissionMode, effort);
    RebuildIsStable(s.modes, models, infos, effort);
  }

  ghost predicate AlwaysInv(env: Env, s: Session, rs: seq<Request>) {
    Inv(env, HandleAll(env, s, rs)) && (rs == [] || AlwaysInv(env, s, rs[..|rs| - 1]))
  }

  predicate NeverSelectsUnnamed(env: Env, s: Session, rs: seq<Request>) {
    rs == [] || (NeverSelectsUnnamed(env, s, rs[..|rs| - 1]) && !SelectsUnnamed(HandleAll(env, s, rs[..|rs| - 1]), rs[|rs| - 1]))
  }

  lemma {:induction false} AlwaysInvExactly(env: Env, s: Session, rs: seq<Request>)
    requires Inv(env, s)
    ensures AlwaysInv(env, s, rs) <==> NeverSelectsUnnamed(env, s, rs)
  {
    hide Inv, Handle, SelectsUnnamed;
    if rs != [] {
      AlwaysInvExactly(env, s, rs[..|rs| - 1]);
      if AlwaysInv(env, s, rs[..|rs| - 1]) {
        RequestKeepsInv(env, HandleAll(env, s, rs[..|rs| - 1]), rs[|rs| - 1]);
      }
    }
  }

  /** Throughout every sequence of requests, accepted or refused, the patched options equal a rebuild,
      the current mode is one the model offers, the client knows it, and the SDK has the effort that the
      options show, if and only if no request picks an empty level against the default. */
  lemma IncrementalEqualsRebuild(
    env: Env, models: Models, infos: seq<ModelInfo>, permissionMode: string, effort: Option<string>, rs: seq<Request>)
    ensures var s := Create(env, models, infos, permissionMode, effort);
            AlwaysInv(env, s, rs) <==> NeverSelectsUnnamed(env, s, rs)
  {
    hide Inv, Create;
    CreateInv(env, models, infos, permissionMode, effort);
    AlwaysInvExactly(env, Create(env, models, infos, permissionMode, effort), rs);
  }

  predicate NamedLevels(infos: seq<ModelInfo>) {
    forall info <- infos :: "" !in info.effortLevels
  }

  lemma FoundInfo(infos: seq<ModelInfo>, value: string)
    ensures FindInfo(infos, value).Some? ==> FindInfo(infos, value).value in infos
  {}

  lemma {:induction false} InfosStay(env: Env, s: Session, rs: seq<Request>)
    ensures HandleAll(env, s, rs).infos == s.infos
  {
    hide Handle;
    if rs != [] {
      InfosStay(env, s, rs[..|rs| - 1]);
      HandledInfos(env, HandleAll(env, s, rs[..|rs| - 1]), rs[|rs| - 1]);
    }
  }

  lemma HandledInfos(env: Env, s: Session, r: Request)
    ensures Handle(env, s, r).infos == s.infos
  {
    hide BuildConfigOptions, ResolveValue, KnownMode, EffortOf, WithValue, BuildAvailableModes;
  }

  /** In particular always when no model offers an empty level. */
  lemma {:induction false} NamedLevelsSuffice(env: Env, s: Session, rs: seq<Request>)
    requires NamedLevels(s.infos)
    ensures NeverSelectsUnnamed(env, s, rs)
  {
    if rs != [] {
      hide HandleAll;
      NamedLevelsSuffice(env, s, rs[..|rs| - 1]);
      InfosStay(env, s, rs[..|rs| - 1]);
      var s' := HandleAll(env, s, rs[..|rs| - 1]);
      FoundInfo(s'.infos, s'.models.currentModelId);
    }
  }
}
