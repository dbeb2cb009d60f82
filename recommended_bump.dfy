/** The decisions `conventionalRecommendedBump` takes between its calls into git,
    the commit parser and the policy: argument checks and defaults, the choice of
    preset, `whatBump` and parser options, the "no commits" warning, and the
    normalisation of what `whatBump` returns. */
module RecommendedBump {
  import opened JsValue

  /** Release type names, indexed by bump level. */
  const VERSIONS: seq<string> := ["major", "minor", "patch"]

  const NO_COMMITS_WARNING: string := "No commits since last release"

  const PRESET_PREFIX: string := "conventional-changelog-"

  /** The options every call starts from before the caller's are laid over them. */
  const DEFAULT_OPTIONS: map<string, Val> := map["ignoreReverted" := Bool(true), "warn" := Fn(DefaultWarn)]

  /** What the function calls and cannot see into, as fixed answers. */
  datatype World = World(
    // the packages `require` can load, by module name
    modules: map<string, Val>,
    // what a function defined elsewhere returns for one argument
    callForeign: (nat, Val) -> Val,
    // the value a factory function hands to its node-style callback;
    // None when it reports an error or never calls back
    factoryResult: nat -> Option<Val>,
    // git-semver-tags, given `lernaTags` and `package`: tags newest first, or its error
    // (an `Error` object, so always truthy for the source's `if (err)`)
    semverTags: (bool, Val) -> Result<seq<string>, Val>,
    // git-raw-commits piped through the commit parser and concatenated,
    // given the starting tag, `options.path` and the parser options
    parsedCommits: (string, Val, map<string, Val>) -> Val,
    // conventional-commits-filter: drops reverted commits
    revertFilter: Val -> Val
  )

  /** Exceptions the function itself raises. */
  datatype Exception =
    | OptionsNotObject          // TypeError('options must be an object')
    | NotCallable(name: string) // TypeError from calling something that is not a function

  /** Errors handed to the callback. */
  datatype BumpError =
    | PresetNotFound(preset: Val)
    | TagLookupFailed(cause: Val)  // git-semver-tags' own error, passed on unchanged

  /** A call the function makes to `options.warn` or to `whatBump`. */
  datatype Call = Call(callee: Val, arg: Val)

  /** How one call of the function ends. */
  datatype Ending =
    | Threw(exception: Exception)              // thrown to the caller synchronously
    | Failed(callback: FnId, error: BumpError) // callback(error)
    | Succeeded(callback: FnId, result: Val)   // callback(null, result)
    | Stalled                                  // the config promise rejected or never settled: no callback
    | Crashed(exception: Exception)            // thrown out of an asynchronous continuation

  /** The calls made to `warn` and `whatBump`, in order, and how the call ended. */
  datatype Run = Run(calls: seq<Call>, ending: Ending)

  /** The message of the error reported for a preset that cannot be loaded. */
  function ErrorMessage(e: BumpError): string {
    match e
    case PresetNotFound(preset) => "Preset: \"" + ToString(preset) + "\" does not exist"
    case TagLookupFailed(cause) => ToString(cause)
  }

  /** `o[key]` for a plain object given by its properties. */
  function Get(o: map<string, Val>, key: string): (v: Val)
    ensures v == Prop(Obj(o), key)
  {
    if key in o then o[key] else Undefined
  }

  // ---------------------------------------------------------------------------
  // Argument handling

  /** `typeof options !== 'object'` is rejected. `typeof null` is 'object', so
      `null` and arrays are accepted as well as plain objects. */
  function AcceptsOptions(options: Val): (ok: bool)
    ensures ok <==> options.Obj? || options.Arr? || options.Null?
  {
    TypeOf(options) == "object"
  }

  /** `Object.assign({ignoreReverted: true, warn: function() {}}, options)`. */
  function WithDefaults(options: Val): (opts: map<string, Val>)
    ensures opts.Keys == OwnEnumerable(options).Keys + {"ignoreReverted", "warn"}
    ensures forall k :: k in OwnEnumerable(options) ==> opts[k] == OwnEnumerable(options)[k]
    ensures "ignoreReverted" !in OwnEnumerable(options) ==> opts["ignoreReverted"] == Bool(true)
    ensures "warn" !in OwnEnumerable(options) ==> opts["warn"] == Fn(DefaultWarn)
  {
    Assign(DEFAULT_OPTIONS, options)
  }

  /** A function in the parser-options position is the callback; otherwise the
      third argument is, or `noop` when it is falsy. */
  function ChooseCallback(parserOpts: Val, cb: Val): (callback: Val)
    ensures parserOpts.Fn? ==> callback == parserOpts
    ensures !parserOpts.Fn? && Truthy(cb) ==> callback == cb
    ensures !parserOpts.Fn? && !Truthy(cb) ==> callback == Fn(Noop)
  {
    if TypeOf(parserOpts) == "function" then parserOpts else Or([cb, Fn(Noop)])
  }

  // ---------------------------------------------------------------------------
  // Policy selection

  /** The package a preset name is loaded from: the prefix, then the name lower-cased. */
  function PresetModuleName(name: string): (m: string)
    ensures |m| == |PRESET_PREFIX| + |name|
    ensures m[..|PRESET_PREFIX|] == PRESET_PREFIX
    ensures forall i :: 0 <= i < |name| ==> m[|PRESET_PREFIX| + i] == LowerChar(name[i])
  {
    PRESET_PREFIX + LowerCase(name)
  }

  /** Loading `options.preset`: a string naming an installed package gives that
      package; any other preset, or a missing package, gives the error that names it. */
  function LoadPreset(world: World, preset: Val): (r: Result<Val, BumpError>)
    ensures r.Ok? <==> preset.Str? && PresetModuleName(preset.s) in world.modules
    ensures r.Ok? ==> r.value == world.modules[PresetModuleName(preset.s)]
    ensures r.Err? ==> r.error == PresetNotFound(preset)
  {
    match preset
    case Str(name) =>
      var moduleName := PresetModuleName(name);
      if moduleName in world.modules then Ok(world.modules[moduleName]) else Err(PresetNotFound(preset))
    case _ => Err(PresetNotFound(preset))
  }

  /** What the config promise settles with: a function is called as a factory,
      anything else is the config itself. None: the promise rejects or never settles. */
  function ResolveConfig(world: World, presetPackage: Val): (config: Option<Val>)
    ensures !presetPackage.Fn? ==> config == Some(presetPackage)
    ensures presetPackage.Fn? && !presetPackage.id.Foreign? ==> config == None
  {
    match presetPackage
    case Fn(Foreign(n)) => world.factoryResult(n)
    case Fn(_) => None  // `noop` and the default warn never call back
    case _ => Some(presetPackage)
  }

  /** `config.recommendedBumpOpts.whatBump`, or `undefined` when there is no
      truthy `recommendedBumpOpts`. */
  function PresetWhatBump(config: Val): Val
    requires !Nullish(config)
  {
    var bumpOpts := Prop(config, "recommendedBumpOpts");
    if Truthy(bumpOpts) then Prop(bumpOpts, "whatBump") else Undefined
  }

  /** The policy used: the caller's `whatBump`, else the preset's, else `noop`. */
  function SelectWhatBump(callerWhatBump: Val, config: Val): (f: Val)
    requires !Nullish(config)
    ensures f == Or([callerWhatBump, PresetWhatBump(config), Fn(Noop)])
    ensures Truthy(f)
  {
    var bumpOpts := Prop(config, "recommendedBumpOpts");
    var guard := if Truthy(bumpOpts) then Prop(bumpOpts, "whatBump") else bumpOpts;
    Or([callerWhatBump, if Truthy(guard) then Prop(bumpOpts, "whatBump") else Fn(Noop)])
  }

  /** The preset's parser options: those nested under `recommendedBumpOpts` when
      they are truthy, otherwise the top-level `parserOpts`. */
  function BaseParserOpts(config: Val): Val
    requires !Nullish(config)
  {
    var bumpOpts := Prop(config, "recommendedBumpOpts");
    if Truthy(bumpOpts) && Truthy(Prop(bumpOpts, "parserOpts")) then Prop(bumpOpts, "parserOpts")
    else Prop(config, "parserOpts")
  }

  /** The `warn` the merged parser options hold before injection: the caller's when
      the caller has the key, else the preset's, else `undefined`. */
  function MergedWarn(base: Val, callerOpts: Val): Val {
    if "warn" in OwnEnumerable(callerOpts) then OwnEnumerable(callerOpts)["warn"]
    else if "warn" in OwnEnumerable(base) then OwnEnumerable(base)["warn"]
    else Undefined
  }

  /** The parser options handed to the commit parser: a fresh object holding the
      preset's options with the caller's written over them key by key, and a
      `warn` injected from the options when the merge has no truthy one. */
  function MergeParserOpts(config: Val, callerOpts: Val, warn: Val): (p: map<string, Val>)
    requires !Nullish(config)
    ensures p.Keys == OwnEnumerable(BaseParserOpts(config)).Keys + OwnEnumerable(callerOpts).Keys + {"warn"}
    ensures forall k :: k != "warn" && k in OwnEnumerable(callerOpts) ==> p[k] == OwnEnumerable(callerOpts)[k]
    ensures forall k :: k != "warn" && k !in OwnEnumerable(callerOpts) && k in OwnEnumerable(BaseParserOpts(config)) ==>
      p[k] == OwnEnumerable(BaseParserOpts(config))[k]
    ensures var w := MergedWarn(BaseParserOpts(config), callerOpts); p["warn"] == if Truthy(w) then w else warn
  {
    var merged := Assign(Assign(map[], BaseParserOpts(config)), callerOpts);
    merged["warn" := Or([Get(merged, "warn"), warn])]
  }

  // ---------------------------------------------------------------------------
  // Commit-set handling

  /** The tag commits are read from: the newest tag, or '' (the repository root). */
  function FromTag(tags: seq<string>): (from: string)
    ensures |tags| > 0 ==> from == tags[0]
    ensures |tags| == 0 ==> from == ""
  {
    var first := if |tags| > 0 then Str(tags[0]) else Undefined;
    var r := Or([first, Str("")]);
    assert r == first || r == Str("");
    r.s
  }

  /** `!commits || !commits.length`: the commit set is missing or empty. */
  function NoCommits(commits: Val): (none: bool)
    ensures Nullish(commits) ==> none
    ensures commits.Arr? ==> (none <==> |commits.items| == 0)
    ensures commits.Str? ==> (none <==> commits.s == "")
    ensures commits.Obj? ==> (none <==> !Truthy(Prop(commits, "length")))
    ensures commits.Bool? || commits.Num? || commits.Fn? ==> none
  {
    !Truthy(commits) || !Truthy(Prop(commits, "length"))
  }

  // ---------------------------------------------------------------------------
  // Result normalisation

  function VersionValues(): (vs: seq<Val>)
    ensures |vs| == |VERSIONS|
    ensures forall i :: 0 <= i < |VERSIONS| ==> vs[i] == Str(VERSIONS[i])
  {
    [Str(VERSIONS[0]), Str(VERSIONS[1]), Str(VERSIONS[2])]
  }

  /** `VERSIONS[level]`: the level is turned into a property key and read from the
      array. Levels 0, 1 and 2 name their release type; other numbers name nothing. */
  function ReleaseType(level: Val): (t: Val)
    ensures level.Num? && 0 <= level.n < |VERSIONS| ==> t == Str(VERSIONS[level.n])
    ensures level.Num? && !(0 <= level.n < |VERSIONS|) ==> t == Undefined
    ensures t.Str? ==> t.s in VERSIONS
  {
    var key := ToString(level);
    if level.Num? && level.n >= 0 then
      IndexRoundTrip(level.n);
      assert key != "length" by { assert '0' <= key[0] <= '9'; }
      Prop(Arr(VersionValues()), key)
    else if level.Num? then
      assert key[0] == '-';
      assert key != "length";
      Prop(Arr(VersionValues()), key)
    else
      Prop(Arr(VersionValues()), key)
  }

  /** Only an object can have a `level` that is neither null nor undefined. */
  lemma LevelOnlyOnObjects(v: Val)
    requires !Nullish(v) && !Nullish(Prop(v, "level"))
    ensures v.Obj?
  {
  }

  /** The normalised result, by the kind of value `whatBump` returned: a number
      becomes `{level, releaseType}`; an object with a level gains the matching
      `releaseType`; `null` and `undefined` become `{}`; anything else is kept. */
  function Normalize(raw: Val): (r: Val)
    ensures !Nullish(r)
    ensures raw.Num? || raw.Obj? || Nullish(raw) ==> r.Obj?
    ensures !(raw.Num? || raw.Obj? || Nullish(raw)) ==> r == raw
    ensures Nullish(raw) ==> r == Obj(map[])
    ensures raw.Num? ==> r.fields.Keys == {"level", "releaseType"} && r.fields["level"] == raw
    ensures raw.Obj? && Nullish(Prop(raw, "level")) ==> r == raw
    ensures raw.Obj? ==> forall k :: k in raw.fields && k != "releaseType" ==> k in r.fields && r.fields[k] == raw.fields[k]
    ensures raw.Obj? ==> r.fields.Keys <= raw.fields.Keys + {"releaseType"}
    ensures r.Obj? && !Nullish(Prop(r, "level")) ==>
      "releaseType" in r.fields && r.fields["releaseType"] == ReleaseType(r.fields["level"])
  {
    match raw
    case Undefined => Obj(map[])
    case Null => Obj(map[])
    case Num(_) => Obj(map["level" := raw, "releaseType" := ReleaseType(raw)])
    case Obj(fields) =>
      if "level" in fields && !Nullish(fields["level"])
      then Obj(fields["releaseType" := ReleaseType(fields["level"])])
      else raw
    case _ => raw
  }

  // ---------------------------------------------------------------------------
  // One whole call

  /** Calling a value: `noop` and the default warn return `undefined`; a value that
      is not a function cannot be called. */
  function Invoke(world: World, f: Val, arg: Val): (r: Option<Val>)
    ensures r.Some? <==> f.Fn?
    ensures f == Fn(Noop) || f == Fn(DefaultWarn) ==> r == Some(Undefined)
  {
    match f
    case Fn(Foreign(n)) => Some(world.callForeign(n, arg))
    case Fn(_) => Some(Undefined)
    case _ => None
  }

  /** Handing an error or a result to the callback; a callback that is not a
      function throws where it is called. */
  function Answer(callback: Val, async: bool, error: Option<BumpError>, result: Val): Ending {
    if !callback.Fn? then
      (if async then Crashed(NotCallable("cb")) else Threw(NotCallable("cb")))
    else match error
      case Some(e) => Failed(callback.id, e)
      case None => Succeeded(callback.id, result)
  }

  /** The commit set the policy sees: reverted commits dropped unless
      `ignoreReverted` is falsy. */
  function ChosenCommits(world: World, ignoreReverted: Val, parsed: Val): Val {
    if Truthy(ignoreReverted) then world.revertFilter(parsed) else parsed
  }

  /** Once the commits are known: warn when there are none, ask the policy, and
      answer with its normalised result. */
  function Conclude(world: World, warn: Val, callback: Val, whatBump: Val, commits: Val): Run {
    var warned := if NoCommits(commits) then [Call(warn, Str(NO_COMMITS_WARNING))] else [];
    if NoCommits(commits) && !warn.Fn? then Run([], Crashed(NotCallable("options.warn")))
    else match Invoke(world, whatBump, commits)
      case None => Run(warned, Crashed(NotCallable("whatBump")))
      case Some(raw) => Run(warned + [Call(whatBump, commits)], Answer(callback, true, None, Normalize(raw)))
  }

  /** Once the tags are known: read the commits since the newest one and conclude. */
  function AfterTags(world: World, opts: map<string, Val>, callback: Val, whatBump: Val,
                     parserOpts: map<string, Val>, tags: Result<seq<string>, Val>): Run
  {
    match tags
    case Err(e) => Run([], Answer(callback, true, Some(TagLookupFailed(e)), Undefined))
    case Ok(found) =>
      var parsed := world.parsedCommits(FromTag(found), Get(opts, "path"), parserOpts);
      var commits := ChosenCommits(world, Get(opts, "ignoreReverted"), parsed);
      Conclude(world, Get(opts, "warn"), callback, whatBump, commits)
  }

  /** Once the config is known: pick the policy and parser options, then look up
      the tags. */
  function Proceed(world: World, opts: map<string, Val>, parserOpts: Val, callback: Val, config: Val): Run
    requires !Nullish(config)
  {
    var whatBump := SelectWhatBump(Get(opts, "whatBump"), config);
    var merged := MergeParserOpts(config, parserOpts, Get(opts, "warn"));
    var lerna := Get(opts, "lernaPackage");
    AfterTags(world, opts, callback, whatBump, merged, world.semverTags(Truthy(lerna), lerna))
  }

  /** Once the preset package is known: resolve the config and proceed, or hand
      the preset error to the callback. */
  function AfterPreset(world: World, opts: map<string, Val>, parserOpts: Val, callback: Val,
                       presetPackage: Result<Val, BumpError>): Run
  {
    match presetPackage
    case Err(e) => Run([], Answer(callback, false, Some(e), Undefined))
    case Ok(p) =>
      match ResolveConfig(world, p)
      case None => Run([], Stalled)
      case Some(config) =>
        if Nullish(config) then Run([], Stalled)  // reading a property of it throws inside the promise
        else Proceed(world, opts, parserOpts, callback, config)
  }

  /** One call `conventionalRecommendedBump(options, parserOpts, cb)`. */
  function Bump(world: World, options: Val, parserOpts: Val, cb: Val): Run {
    if !AcceptsOptions(options) then Run([], Threw(OptionsNotObject))
    else
      var opts := WithDefaults(options);
      var callback := ChooseCallback(parserOpts, cb);
      var preset := Get(opts, "preset");
      var presetPackage :=
        if Truthy(preset) then LoadPreset(world, preset)
        else Ok(Or([Get(opts, "config"), Obj(map[])]));
      AfterPreset(world, opts, parserOpts, callback, presetPackage)
  }

  /** The function body up to the choice of preset package, reassigning its
      locals as the source does. */
  method RecommendBump(world: World, options: Val, parserOpts: Val, cb: Val) returns (run: Run)
    ensures run == Bump(world, options, parserOpts, cb)
  {
    if TypeOf(options) != "object" {
      return Run([], Threw(OptionsNotObject));
    }
    var opts := Assign(map["ignoreReverted" := Bool(true), "warn" := Fn(DefaultWarn)], options);
    var callback := if TypeOf(parserOpts) == "function" then parserOpts else Or([cb, Fn(Noop)]);
    assert opts == WithDefaults(options) && callback == ChooseCallback(parserOpts, cb);

    var presetPackage: Val;
    var preset := Get(opts, "preset");
    if Truthy(preset) {
      if !preset.Str? || PresetModuleName(preset.s) !in world.modules {
        return Run([], Answer(callback, false, Some(PresetNotFound(preset)), Undefined));
      }
      presetPackage := world.modules[PresetModuleName(preset.s)];
    } else {
      presetPackage := Or([Get(opts, "config"), Obj(map[])]);
    }
    assert Bump(world, options, parserOpts, cb) == AfterPreset(world, opts, parserOpts, callback, Ok(presetPackage));
    run := OnPresetPackage(world, opts, parserOpts, callback, presetPackage);
  }

  /** Turning the preset package into the config promise and waiting for it. */
  method OnPresetPackage(world: World, opts: map<string, Val>, parserOpts: Val, callback: Val, presetPackage: Val)
    returns (run: Run)
    ensures run == AfterPreset(world, opts, parserOpts, callback, Ok(presetPackage))
  {
    var settled := ResolveConfig(world, presetPackage);
    if settled.None? || Nullish(settled.value) {
      return Run([], Stalled);
    }
    var config := settled.value;
    assert AfterPreset(world, opts, parserOpts, callback, Ok(presetPackage)) == Proceed(world, opts, parserOpts, callback, config);
    run := OnConfig(world, opts, parserOpts, callback, config);
  }

  /** The continuation run once the config is known. */
  method OnConfig(world: World, opts: map<string, Val>, parserOpts: Val, callback: Val, config: Val)
    returns (run: Run)
    requires !Nullish(config)
    ensures run == Proceed(world, opts, parserOpts, callback, config)
  {
    var whatBump := SelectWhatBump(Get(opts, "whatBump"), config);
    var merged := Assign(Assign(map[], BaseParserOpts(config)), parserOpts);
    merged := merged["warn" := Or([Get(merged, "warn"), Get(opts, "warn")])];
    var lerna := Get(opts, "lernaPackage");
    var tags := world.semverTags(Truthy(lerna), lerna);
    run := OnTags(world, opts, callback, whatBump, merged, tags);
  }

  /** The continuation handed to the tag lookup. */
  method OnTags(world: World, opts: map<string, Val>, callback: Val, whatBump: Val,
                parserOpts: map<string, Val>, tags: Result<seq<string>, Val>) returns (run: Run)
    ensures run == AfterTags(world, opts, callback, whatBump, parserOpts, tags)
  {
    if tags.Err? {
      return Run([], Answer(callback, true, Some(TagLookupFailed(tags.error)), Undefined));
    }
    var from := FromTag(tags.value);
    var data := world.parsedCommits(from, Get(opts, "path"), parserOpts);
    run := OnCommits(world, Get(opts, "ignoreReverted"), Get(opts, "warn"), callback, whatBump, data);
  }

  /** The continuation run once every parsed commit has been collected. */
  method OnCommits(world: World, ignoreReverted: Val, warn: Val, callback: Val, whatBump: Val, data: Val)
    returns (run: Run)
    ensures run == Conclude(world, warn, callback, whatBump, ChosenCommits(world, ignoreReverted, data))
  {
    var commits: Val;
    if Truthy(ignoreReverted) {
      commits := world.revertFilter(data);
    } else {
      commits := data;
    }

    var calls: seq<Call> := [];
    if !Truthy(commits) || !Truthy(Prop(commits, "length")) {
      if !warn.Fn? {
        return Run([], Crashed(NotCallable("options.warn")));
      }
      calls := calls + [Call(warn, Str(NO_COMMITS_WARNING))];
    }

    if !whatBump.Fn? {
      return Run(calls, Crashed(NotCallable("whatBump")));
    }
    var raw := Invoke(world, whatBump, commits).value;
    calls := calls + [Call(whatBump, commits)];
    var result := NormalizeResult(raw);
    run := Run(calls, Answer(callback, true, None, result));
  }

  /** The normalisation of `whatBump`'s result as the source performs it: a number
      is wrapped, then a level gets its release type written onto the object, and
      a missing result becomes `{}`. */
  method NormalizeResult(raw: Val) returns (result: Val)
    ensures result == Normalize(raw)
  {
    result := raw;
    if TypeOf(result) == "number" {
      result := Obj(map["level" := result]);
    }
    if Truthy(result) && !Nullish(Prop(result, "level")) {
      LevelOnlyOnObjects(result);
      result := Obj(result.fields["releaseType" := ReleaseType(Prop(result, "level"))]);
    } else if Nullish(result) {
      result := Obj(map[]);
    }
  }
}
