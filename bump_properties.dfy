/** What `conventionalRecommendedBump` promises, stated over the model: the
    argument check, the precedence rules, the commit-set warning, the
    normalisation of the policy's result, and the outcomes its tests expect. */
module BumpProperties {
  import opened JsValue
  import opened RecommendedBump

  // ---------------------------------------------------------------------------
  // Argument handling

  /** The async stages never throw to the caller: whatever goes wrong after the
      config promise is created ends as a callback, a crash or a stall. */
  lemma AfterPresetNeverThrows(world: World, opts: map<string, Val>, parserOpts: Val, callback: Val, p: Val)
    ensures !AfterPreset(world, opts, parserOpts, callback, Ok(p)).ending.Threw?
  {
    match ResolveConfig(world, p)
    case None =>
    case Some(config) =>
      if !Nullish(config) {
        assert AfterPreset(world, opts, parserOpts, callback, Ok(p)) == Proceed(world, opts, parserOpts, callback, config);
        ProceedNeverThrows(world, opts, parserOpts, callback, config);
      }
  }

  lemma ProceedNeverThrows(world: World, opts: map<string, Val>, parserOpts: Val, callback: Val, config: Val)
    requires !Nullish(config)
    ensures !Proceed(world, opts, parserOpts, callback, config).ending.Threw?
  {
    var whatBump := SelectWhatBump(Get(opts, "whatBump"), config);
    var merged := MergeParserOpts(config, parserOpts, Get(opts, "warn"));
    var lerna := Get(opts, "lernaPackage");
    var tags := world.semverTags(Truthy(lerna), lerna);
    var run := AfterTags(world, opts, callback, whatBump, merged, tags);
    assert Proceed(world, opts, parserOpts, callback, config) == run;
    if tags.Ok? {
      var parsed := world.parsedCommits(FromTag(tags.value), Get(opts, "path"), merged);
      var commits := ChosenCommits(world, Get(opts, "ignoreReverted"), parsed);
      TagsFoundConclude(world, opts, callback, whatBump, merged, tags.value);
      ConcludeNeverThrows(world, Get(opts, "warn"), callback, whatBump, commits);
    }
  }

  lemma ConcludeNeverThrows(world: World, warn: Val, callback: Val, whatBump: Val, commits: Val)
    ensures !Conclude(world, warn, callback, whatBump, commits).ending.Threw?
    ensures !Conclude(world, warn, callback, whatBump, commits).ending.Failed?
  {
  }

  /** The call throws `options must be an object` exactly when `typeof options`
      is not 'object', and then before any other call is made. */
  lemma OptionsCheckedFirst(world: World, options: Val, parserOpts: Val, cb: Val)
    ensures Bump(world, options, parserOpts, cb).ending == Threw(OptionsNotObject) <==> !AcceptsOptions(options)
    ensures !AcceptsOptions(options) ==> Bump(world, options, parserOpts, cb).calls == []
  {
    if AcceptsOptions(options) {
      var opts := WithDefaults(options);
      var callback := ChooseCallback(parserOpts, cb);
      var preset := Get(opts, "preset");
      if Truthy(preset) && LoadPreset(world, preset).Err? {
        assert Bump(world, options, parserOpts, cb).ending == Answer(callback, false, Some(PresetNotFound(preset)), Undefined);
        assert Answer(callback, false, Some(PresetNotFound(preset)), Undefined) != Threw(OptionsNotObject);
      } else {
        var p := if Truthy(preset) then LoadPreset(world, preset).value else Or([Get(opts, "config"), Obj(map[])]);
        assert Bump(world, options, parserOpts, cb) == AfterPreset(world, opts, parserOpts, callback, Ok(p));
        AfterPresetNeverThrows(world, opts, parserOpts, callback, p);
      }
    } else {
      assert Bump(world, options, parserOpts, cb) == Run([], Threw(OptionsNotObject));
    }
  }

  /** A preset that cannot be loaded is reported to the callback with the error
      that names it, and nothing else happens. */
  lemma MissingPresetReported(world: World, options: map<string, Val>, f: FnId)
    requires "preset" in options && Truthy(options["preset"])
    requires !options["preset"].Str? || PresetModuleName(options["preset"].s) !in world.modules
    ensures Bump(world, Obj(options), Fn(f), Undefined) == Run([], Failed(f, PresetNotFound(options["preset"])))
    ensures ErrorMessage(PresetNotFound(options["preset"])) == "Preset: \"" + ToString(options["preset"]) + "\" does not exist"
  {
    var opts := WithDefaults(Obj(options));
    assert Get(opts, "preset") == options["preset"];
  }

  /** The preset name is looked up case-insensitively: a name and its lower-cased
      form load the same package. */
  lemma {:induction false} PresetLookupIgnoresCase(world: World, name: string)
    ensures LoadPreset(world, Str(LowerCase(name))) == match LoadPreset(world, Str(name))
      case Ok(p) => Ok(p)
      case Err(_) => Err(PresetNotFound(Str(LowerCase(name))))
  {
    LowerCaseIdempotent(name);
    assert PresetModuleName(LowerCase(name)) == PresetModuleName(name);
  }

  // ---------------------------------------------------------------------------
  // Policy selection

  /** The caller's truthy `whatBump` wins; else the preset's truthy one; else `noop`. */
  lemma WhatBumpPrecedence(callerWhatBump: Val, config: Val)
    requires !Nullish(config)
    ensures Truthy(callerWhatBump) ==> SelectWhatBump(callerWhatBump, config) == callerWhatBump
    ensures !Truthy(callerWhatBump) && Truthy(PresetWhatBump(config)) ==>
      SelectWhatBump(callerWhatBump, config) == PresetWhatBump(config)
    ensures !Truthy(callerWhatBump) && !Truthy(PresetWhatBump(config)) ==>
      SelectWhatBump(callerWhatBump, config) == Fn(Noop)
  {
    var f := SelectWhatBump(callerWhatBump, config);
    if !Truthy(callerWhatBump) {
      if Truthy(PresetWhatBump(config)) {
        assert f != callerWhatBump;
      }
    }
  }

  /** Truthy nested parser options hide the top-level ones completely: changing
      the preset's top-level `parserOpts` changes nothing. */
  lemma NestedParserOptsShadowTopLevel(fields: map<string, Val>, other: Val, callerOpts: Val, warn: Val)
    requires "recommendedBumpOpts" in fields && Truthy(fields["recommendedBumpOpts"])
    requires Truthy(Prop(fields["recommendedBumpOpts"], "parserOpts"))
    ensures MergeParserOpts(Obj(fields["parserOpts" := other]), callerOpts, warn) == MergeParserOpts(Obj(fields), callerOpts, warn)
    ensures BaseParserOpts(Obj(fields)) == Prop(fields["recommendedBumpOpts"], "parserOpts")
  {
    assert BaseParserOpts(Obj(fields["parserOpts" := other])) == BaseParserOpts(Obj(fields));
  }

  /** Without truthy nested parser options the top-level ones are the base layer. */
  lemma TopLevelParserOptsOtherwise(config: Val)
    requires !Nullish(config)
    requires var b := Prop(config, "recommendedBumpOpts"); !Truthy(b) || !Truthy(Prop(b, "parserOpts"))
    ensures BaseParserOpts(config) == Prop(config, "parserOpts")
  {
  }

  /** A callback passed in the parser-options position contributes no parser
      options: the merge is the one for no caller options at all. */
  lemma CallbackAddsNoParserOpts(config: Val, f: FnId, warn: Val)
    requires !Nullish(config)
    ensures MergeParserOpts(config, Fn(f), warn) == MergeParserOpts(config, Obj(map[]), warn)
  {
    var base := Assign(map[], BaseParserOpts(config));
    assert Assign(base, Fn(f)) == Assign(base, Obj(map[]));
  }

  /** A caller's truthy `warn` in the parser options is kept; the options' `warn`
      is injected only when the merged value has none. */
  lemma CallerParserWarnKept(config: Val, callerOpts: map<string, Val>, warn: Val)
    requires !Nullish(config)
    ensures "warn" in callerOpts && Truthy(callerOpts["warn"]) ==>
      MergeParserOpts(config, Obj(callerOpts), warn)["warn"] == callerOpts["warn"]
    ensures "warn" in callerOpts && !Truthy(callerOpts["warn"]) ==>
      MergeParserOpts(config, Obj(callerOpts), warn)["warn"] == warn
  {
  }

  // ---------------------------------------------------------------------------
  // Commit-set handling

  /** The warning is issued exactly when the chosen commit set is missing or
      empty, before the policy, which is then called with that same set. */
  lemma WarnExactlyWhenNoCommits(world: World, warn: Val, callback: Val, whatBump: Val, commits: Val)
    requires warn.Fn?
    ensures var run := Conclude(world, warn, callback, whatBump, commits);
      && |run.calls| == (if NoCommits(commits) then 1 else 0) + (if whatBump.Fn? then 1 else 0)
      && (NoCommits(commits) ==> run.calls[0] == Call(warn, Str(NO_COMMITS_WARNING)))
      && (whatBump.Fn? ==> run.calls[|run.calls| - 1] == Call(whatBump, commits))
      && (whatBump.Fn? && callback.Fn? ==> run.ending == Succeeded(callback.id, Normalize(Invoke(world, whatBump, commits).value)))
      && (!whatBump.Fn? ==> run.ending == Crashed(NotCallable("whatBump")))
  {
  }

  /** The policy sees the revert-filtered commits unless `ignoreReverted` is falsy. */
  lemma RevertFilterChoice(world: World, ignoreReverted: Val, parsed: Val)
    ensures Truthy(ignoreReverted) ==> ChosenCommits(world, ignoreReverted, parsed) == world.revertFilter(parsed)
    ensures !Truthy(ignoreReverted) ==> ChosenCommits(world, ignoreReverted, parsed) == parsed
  {
  }

  // ---------------------------------------------------------------------------
  // Result normalisation

  /** Bump levels 0, 1 and 2 become `{level, releaseType}` with the matching name. */
  lemma NumericLevelNamesReleaseType(n: int)
    requires 0 <= n < |VERSIONS|
    ensures Normalize(Num(n)) == Obj(map["level" := Num(n), "releaseType" := Str(VERSIONS[n])])
    ensures n == 0 ==> Normalize(Num(n)).fields["releaseType"] == Str("major")
    ensures n == 1 ==> Normalize(Num(n)).fields["releaseType"] == Str("minor")
    ensures n == 2 ==> Normalize(Num(n)).fields["releaseType"] == Str("patch")
  {
  }

  /** Any other number keeps its level and gets an undefined release type. */
  lemma OtherLevelNamesNothing(n: int)
    requires !(0 <= n < |VERSIONS|)
    ensures Normalize(Num(n)) == Obj(map["level" := Num(n), "releaseType" := Undefined])
  {
  }

  /** Normalising a normalised result changes nothing. */
  lemma NormalizeIdempotent(raw: Val)
    ensures Normalize(Normalize(raw)) == Normalize(raw)
  {
    var r := Normalize(raw);
    if r.Obj? && "level" in r.fields && !Nullish(r.fields["level"]) {
      assert r.fields["releaseType" := ReleaseType(r.fields["level"])] == r.fields;
    }
  }

  // ---------------------------------------------------------------------------
  // The outcomes the tests expect, for every world they can happen in

  /** Calling without options throws before anything else happens. */
  lemma NoOptionsThrows(world: World)
    ensures Bump(world, Undefined, Undefined, Undefined) == Run([], Threw(OptionsNotObject))
  {
  }

  /** Without a preset or a config, the preset package is `{}`. */
  lemma EmptyPresetPackage(world: World, options: Val, parserOpts: Val, cb: Val)
    requires AcceptsOptions(options)
    requires !Truthy(Get(WithDefaults(options), "preset")) && !Truthy(Get(WithDefaults(options), "config"))
    ensures Bump(world, options, parserOpts, cb) ==
      AfterPreset(world, WithDefaults(options), parserOpts, ChooseCallback(parserOpts, cb), Ok(Obj(map[])))
  {
    assert Or([Get(WithDefaults(options), "config"), Obj(map[])]) == Obj(map[]);
  }

  /** A key the caller leaves out and the defaults do not set is undefined. */
  lemma DefaultsOnly(fields: map<string, Val>, key: string)
    requires key !in fields && key != "ignoreReverted" && key != "warn"
    ensures Get(WithDefaults(Obj(fields)), key) == Undefined
  {
  }

  /** A config that is a plain value is used as it is. */
  lemma PlainConfigProceeds(world: World, opts: map<string, Val>, parserOpts: Val, callback: Val, config: Val)
    requires !Nullish(config) && !config.Fn?
    ensures AfterPreset(world, opts, parserOpts, callback, Ok(config)) == Proceed(world, opts, parserOpts, callback, config)
  {
  }

  /** Without `lernaPackage`, the tags of the whole repository are looked up. */
  lemma ProceedWithoutLerna(world: World, opts: map<string, Val>, parserOpts: Val, callback: Val, config: Val)
    requires !Nullish(config) && Get(opts, "lernaPackage") == Undefined
    ensures Proceed(world, opts, parserOpts, callback, config) ==
      AfterTags(world, opts, callback, SelectWhatBump(Get(opts, "whatBump"), config),
                MergeParserOpts(config, parserOpts, Get(opts, "warn")), world.semverTags(false, Undefined))
  {
  }

  /** Without `preset`, `config` or `lernaPackage`, the config is `{}` and the
      call goes straight to the tag lookup for the whole repository. */
  lemma CallWithoutPreset(world: World, fields: map<string, Val>, parserOpts: Val, cb: Val)
    requires "preset" !in fields && "config" !in fields && "lernaPackage" !in fields
    ensures var opts := WithDefaults(Obj(fields));
      Bump(world, Obj(fields), parserOpts, cb) ==
        AfterTags(world, opts, ChooseCallback(parserOpts, cb), SelectWhatBump(Get(opts, "whatBump"), Obj(map[])),
                  MergeParserOpts(Obj(map[]), parserOpts, Get(opts, "warn")), world.semverTags(false, Undefined))
  {
    var opts := WithDefaults(Obj(fields));
    var callback := ChooseCallback(parserOpts, cb);
    DefaultsOnly(fields, "preset");
    DefaultsOnly(fields, "config");
    DefaultsOnly(fields, "lernaPackage");
    EmptyPresetPackage(world, Obj(fields), parserOpts, cb);
    PlainConfigProceeds(world, opts, parserOpts, callback, Obj(map[]));
    ProceedWithoutLerna(world, opts, parserOpts, callback, Obj(map[]));
  }

  /** A key the caller gives keeps the caller's value over the defaults. */
  lemma CallerOptionWins(fields: map<string, Val>, key: string)
    requires key in fields
    ensures Get(WithDefaults(Obj(fields)), key) == fields[key]
  {
  }

  /** Keys the caller leaves out: `ignoreReverted` is `true` and `warn` is the
      default warning function. */
  lemma DefaultsFillIn(fields: map<string, Val>)
    ensures "ignoreReverted" !in fields ==> Get(WithDefaults(Obj(fields)), "ignoreReverted") == Bool(true)
    ensures "warn" !in fields ==> Get(WithDefaults(Obj(fields)), "warn") == Fn(DefaultWarn)
  {
  }

  /** Once the tags are found, the commits since the newest one are chosen and the
      call concludes. */
  lemma TagsFoundConclude(world: World, opts: map<string, Val>, callback: Val, whatBump: Val,
                          merged: map<string, Val>, found: seq<string>)
    ensures AfterTags(world, opts, callback, whatBump, merged, Ok(found)) ==
      Conclude(world, Get(opts, "warn"), callback, whatBump,
               ChosenCommits(world, Get(opts, "ignoreReverted"), world.parsedCommits(FromTag(found), Get(opts, "path"), merged)))
  {
  }

  /** With the tags found, a call without preset, config or `lernaPackage`
      concludes on the chosen commits since the newest tag. */
  lemma PresetFreeRun(world: World, fields: map<string, Val>, parserOpts: Val, cb: Val)
    requires world.semverTags(false, Undefined).Ok?
    requires "preset" !in fields && "config" !in fields && "lernaPackage" !in fields
    ensures var opts := WithDefaults(Obj(fields));
      var merged := MergeParserOpts(Obj(map[]), parserOpts, Get(opts, "warn"));
      var from := FromTag(world.semverTags(false, Undefined).value);
      Bump(world, Obj(fields), parserOpts, cb) ==
        Conclude(world, Get(opts, "warn"), ChooseCallback(parserOpts, cb), SelectWhatBump(Get(opts, "whatBump"), Obj(map[])),
                 ChosenCommits(world, Get(opts, "ignoreReverted"), world.parsedCommits(from, Get(opts, "path"), merged)))
  {
    var opts := WithDefaults(Obj(fields));
    CallWithoutPreset(world, fields, parserOpts, cb);
    TagsFoundConclude(world, opts, ChooseCallback(parserOpts, cb), SelectWhatBump(Get(opts, "whatBump"), Obj(map[])),
                      MergeParserOpts(Obj(map[]), parserOpts, Get(opts, "warn")), world.semverTags(false, Undefined).value);
  }

  /** With `{}` as options and the callback in the second position, a failing
      tag lookup reaches the callback as an error. */
  lemma TagFailureReported(world: World, f: FnId)
    requires world.semverTags(false, Undefined).Err?
    ensures Bump(world, Obj(map[]), Fn(f), Undefined) ==
      Run([], Failed(f, TagLookupFailed(world.semverTags(false, Undefined).error)))
  {
    CallWithoutPreset(world, map[], Fn(f), Undefined);
  }

  /** With no `whatBump` in the options or the config, the callback receives
      `{}`. */
  lemma NoPolicyGivesEmpty(world: World, fields: map<string, Val>, f: FnId)
    requires world.semverTags(false, Undefined).Ok?
    requires "preset" !in fields && "config" !in fields && "lernaPackage" !in fields
    requires "whatBump" !in fields && "warn" !in fields
    ensures Bump(world, Obj(fields), Fn(f), Undefined).ending == Succeeded(f, Obj(map[]))
  {
    var opts := WithDefaults(Obj(fields));
    assert Get(opts, "warn") == Fn(DefaultWarn) by { DefaultsFillIn(fields); }
    assert Get(opts, "whatBump") == Undefined by { DefaultsOnly(fields, "whatBump"); }
    assert SelectWhatBump(Get(opts, "whatBump"), Obj(map[])) == Fn(Noop) by {
      assert PresetWhatBump(Obj(map[])) == Undefined;
      WhatBumpPrecedence(Get(opts, "whatBump"), Obj(map[]));
    }
    PresetFreeRun(world, fields, Fn(f), Undefined);
    var run := Bump(world, Obj(fields), Fn(f), Undefined);
    assert run.ending == Succeeded(f, Normalize(Undefined)) by {
      var merged := MergeParserOpts(Obj(map[]), Fn(f), Fn(DefaultWarn));
      var from := FromTag(world.semverTags(false, Undefined).value);
      var commits := ChosenCommits(world, Get(opts, "ignoreReverted"), world.parsedCommits(from, Get(opts, "path"), merged));
      WarnExactlyWhenNoCommits(world, Fn(DefaultWarn), Fn(f), Fn(Noop), commits);
    }
  }

  /** The callback receives what the caller's `whatBump` makes of the chosen
      commits since the newest tag, normalised. */
  lemma CallerPolicyResult(world: World, fields: map<string, Val>, w: nat, f: FnId)
    requires world.semverTags(false, Undefined).Ok?
    requires "preset" !in fields && "config" !in fields && "lernaPackage" !in fields && "warn" !in fields
    requires "whatBump" in fields && fields["whatBump"] == Fn(Foreign(w))
    ensures var opts := WithDefaults(Obj(fields));
      var merged := MergeParserOpts(Obj(map[]), Fn(f), Fn(DefaultWarn));
      var from := FromTag(world.semverTags(false, Undefined).value);
      var commits := ChosenCommits(world, Get(opts, "ignoreReverted"), world.parsedCommits(from, Get(opts, "path"), merged));
      Bump(world, Obj(fields), Fn(f), Undefined).ending == Succeeded(f, Normalize(world.callForeign(w, commits)))
  {
    var opts := WithDefaults(Obj(fields));
    var whatBump := Fn(Foreign(w));
    assert Get(opts, "warn") == Fn(DefaultWarn) by { DefaultsFillIn(fields); }
    assert Get(opts, "whatBump") == whatBump by { CallerOptionWins(fields, "whatBump"); }
    PresetFreeRun(world, fields, Fn(f), Undefined);
    var merged := MergeParserOpts(Obj(map[]), Fn(f), Fn(DefaultWarn));
    var from := FromTag(world.semverTags(false, Undefined).value);
    var commits := ChosenCommits(world, Get(opts, "ignoreReverted"), world.parsedCommits(from, Get(opts, "path"), merged));
    var run := Bump(world, Obj(fields), Fn(f), Undefined);
    assert run.ending == Succeeded(f, Normalize(world.callForeign(w, commits))) by {
      assert Invoke(world, whatBump, commits) == Some(world.callForeign(w, commits));
      WarnExactlyWhenNoCommits(world, Fn(DefaultWarn), Fn(f), whatBump, commits);
    }
  }

  /** The results the tests' policies return, normalised: `null` gives `{}`, `0`
      gives a major bump, an object without a level is passed through. */
  lemma TestPolicyResults()
    ensures Normalize(Null) == Obj(map[])
    ensures Normalize(Num(0)) == Obj(map["level" := Num(0), "releaseType" := Str("major")])
    ensures Normalize(Obj(map["test" := Str("test")])) == Obj(map["test" := Str("test")])
  {
    NumericLevelNamesReleaseType(0);
    assert Prop(Obj(map["test" := Str("test")]), "level") == Undefined;
  }

  /** With the caller's `warn` and no commits left since the newest tag once
      reverted ones are dropped, the warning is the first call made. */
  lemma NoNewCommitsWarns(world: World, fields: map<string, Val>, w: nat)
    requires world.semverTags(false, Undefined).Ok?
    requires NoCommits(world.revertFilter(world.parsedCommits(FromTag(world.semverTags(false, Undefined).value),
      Get(WithDefaults(Obj(fields)), "path"), MergeParserOpts(Obj(map[]), Undefined, Fn(Foreign(w))))))
    requires "preset" !in fields && "config" !in fields && "lernaPackage" !in fields && "ignoreReverted" !in fields
    requires "warn" in fields && fields["warn"] == Fn(Foreign(w))
    ensures var run := Bump(world, Obj(fields), Undefined, Undefined);
      |run.calls| > 0 && run.calls[0] == Call(Fn(Foreign(w)), Str(NO_COMMITS_WARNING))
  {
    var opts := WithDefaults(Obj(fields));
    assert Get(opts, "warn") == Fn(Foreign(w)) by { CallerOptionWins(fields, "warn"); }
    assert Get(opts, "ignoreReverted") == Bool(true) by { DefaultsFillIn(fields); }
    PresetFreeRun(world, fields, Undefined, Undefined);
    var run := Bump(world, Obj(fields), Undefined, Undefined);
    assert |run.calls| > 0 && run.calls[0] == Call(Fn(Foreign(w)), Str(NO_COMMITS_WARNING)) by {
      var merged := MergeParserOpts(Obj(map[]), Undefined, Fn(Foreign(w)));
      var from := FromTag(world.semverTags(false, Undefined).value);
      var commits := world.revertFilter(world.parsedCommits(from, Get(opts, "path"), merged));
      WarnExactlyWhenNoCommits(world, Fn(Foreign(w)), Fn(Noop), SelectWhatBump(Get(opts, "whatBump"), Obj(map[])), commits);
    }
  }
}
