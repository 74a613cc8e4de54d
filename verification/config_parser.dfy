/**
 * `ConfigParser`: builds the generator's Hadoop `Configuration` from the
 * built-in defaults, a named scale-factor preset and explicit properties.
 * A configuration is a string-to-string map; Hadoop's own default resources,
 * the parsed `scale_factors.xml` and the loaded properties file are given as
 * maps.
 */
module Config {
  import opened Wrappers

  const ScaleFactorKey := "ldbc.snb.datagen.generator.scaleFactor"
  const NumThreadsKey := "ldbc.snb.datagen.generator.numThreads"
  const DefaultFsKey := "fs.defaultFS"
  /** The file system URI of standalone (local) mode. */
  const LocalFs := "file:///"

  /** A named preset of `scale_factors.xml`: the properties it sets. */
  datatype ScaleFactor = ScaleFactor(properties: map<string, string>)

  /** Why `readConfig` stops the program (`System.exit(-1)` after the exception). */
  datatype ConfigError =
    | UnknownScaleFactor(name: string)   // `scaleFactors.get(val)` is null
    | MissingDefaultFs                   // `conf.get("fs.defaultFS")` is null

  /** A Hadoop `Configuration`: `set` overwrites, `get` yields `null` for an unset key. */
  class Configuration {
    var entries: map<string, string>

    constructor (entries: map<string, string>)
      ensures this.entries == entries
    {
      this.entries := entries;
    }

    function Get(key: string): (v: Option<string>)
      reads this
      ensures v.Some? <==> key in entries
      ensures v.Some? ==> v.value == entries[key]
    {
      if key in entries then Some(entries[key]) else None
    }

    method Set(key: string, value: string)
      modifies this
      ensures entries == old(entries)[key := value]
    {
      entries := entries[key := value];
    }

    /** `checkOption`: copies `option` from the properties only when it is set there. */
    method CheckOption(option: string, properties: map<string, string>)
      modifies this
      ensures option in properties ==> entries == old(entries)[option := properties[option]]
      ensures option !in properties ==> entries == old(entries)
    {
      if option in properties {
        Set(option, properties[option]);
      }
    }
  }

  /** The defaults `initialize` sets, on top of whatever Hadoop's `new Configuration()` loads. */
  function DefaultConfiguration(): map<string, string>
  {
    map[
      "" := "1",
      "ldbc.snb.datagen.generator.numPersons" := "10000",
      "ldbc.snb.datagen.generator.startYear" := "2010",
      "ldbc.snb.datagen.generator.numYears" := "3",
      NumThreadsKey := "1",
      "ldbc.snb.datagen.serializer.personSerializer" := "ldbc.snb.datagen.serializer.snb.interactive.CSVPersonSerializer",
      "ldbc.snb.datagen.serializer.invariantSerializer" := "ldbc.snb.datagen.serializer.snb.interactive.CSVInvariantSerializer",
      "ldbc.snb.datagen.serializer.personActivitySerializer" := "ldbc.snb.datagen.serializer.snb.interactive.CSVPersonActivitySerializer",
      "ldbc.snb.datagen.generator.distribution.degreeDistribution" := "ldbc.snb.datagen.generator.distribution.FacebookDegreeDistribution",
      "ldbc.snb.datagen.generator.knowsGenerator" := "ldbc.snb.datagen.generator.DistanceKnowsGenerator",
      "ldbc.snb.datagen.serializer.compressed" := "false",
      "ldbc.snb.datagen.serializer.updateStreams" := "true",
      "ldbc.snb.datagen.serializer.numPartitions" := "1",
      "ldbc.snb.datagen.serializer.numUpdatePartitions" := "1",
      "ldbc.snb.datagen.serializer.outputDir" := "./",
      "ldbc.snb.datagen.serializer.socialNetworkDir" := "./social_network",
      "ldbc.snb.datagen.serializer.hadoopDir" := "./hadoop",
      "ldbc.snb.datagen.serializer.endlineSeparator" := "false",
      "ldbc.snb.datagen.generator.deltaTime" := "10000",
      "ldbc.snb.datagen.generator.activity" := "true",
      "ldbc.snb.datagen.serializer.dateFormatter" := "ldbc.snb.datagen.serializer.formatter.StringDateFormatter",
      "ldbc.snb.datagen.serializer.formatter.StringDateFormatter.dateTimeFormat" := "yyyy-MM-dd'T'HH:mm:ss.SSSZ",
      "ldbc.snb.datagen.serializer.formatter.StringDateFormatter.dateFormat" := "yyyy-MM-dd",
      "ldbc.snb.datagen.generator.person.similarity" := "ldbc.snb.datagen.objects.similarity.GeoDistanceSimilarity",
      "ldbc.snb.datagen.parametergenerator.python" := "python",
      "ldbc.snb.datagen.parametergenerator.parameters" := "true",
      "ldbc.snb.datagen.serializer.persons.sort" := "true"
    ]
  }

  /** The defaults run on one thread and name the CSV activity serialiser. */
  lemma DefaultsValues()
    ensures DefaultConfiguration()[NumThreadsKey] == "1"
    ensures DefaultConfiguration()["ldbc.snb.datagen.serializer.personActivitySerializer"]
         == "ldbc.snb.datagen.serializer.snb.interactive.CSVPersonActivitySerializer"
  {
  }

  /** The defaults pick neither a scale factor nor a file system. */
  lemma DefaultsLeaveOpen()
    ensures ScaleFactorKey !in DefaultConfiguration() && DefaultFsKey !in DefaultConfiguration()
  {
  }

  /** The explicit properties `readConfig` copies: all but the scale-factor name. */
  function Explicit(properties: map<string, string>): map<string, string>
  {
    properties - {ScaleFactorKey}
  }

  /** The preset the properties select, if they name one. */
  function Preset(presets: map<string, ScaleFactor>, properties: map<string, string>): map<string, string>
  {
    if ScaleFactorKey in properties && properties[ScaleFactorKey] in presets
    then presets[properties[ScaleFactorKey]].properties
    else map[]
  }

  /**
   * The configuration `readConfig` leaves behind: the named preset over the
   * prior entries, the explicit properties over both, and one thread in
   * standalone mode; or the error that stops the program.
   */
  function Layered(conf: map<string, string>, presets: map<string, ScaleFactor>, properties: map<string, string>)
    : Result<map<string, string>, ConfigError>
  {
    if ScaleFactorKey in properties && properties[ScaleFactorKey] !in presets then
      Failure(UnknownScaleFactor(properties[ScaleFactorKey]))
    else
      var overridden := conf + Preset(presets, properties) + Explicit(properties);
      if DefaultFsKey !in overridden then Failure(MissingDefaultFs)
      else if overridden[DefaultFsKey] == LocalFs then Success(overridden[NumThreadsKey := "1"])
      else Success(overridden)
  }

  class ConfigParser {
    /** `scaleFactors`: the presets by name, as `initialize` read them. */
    var scaleFactors: map<string, ScaleFactor>

    constructor ()
      ensures scaleFactors == map[]
    {
      scaleFactors := map[];
    }

    /**
     * `initialize()`: a configuration holding Hadoop's defaults overridden by
     * the generator's; the presets become the parser's scale factors.
     */
    method Initialize(hadoopDefaults: map<string, string>, presets: map<string, ScaleFactor>)
      returns (conf: Configuration)
      modifies this
      ensures fresh(conf) && scaleFactors == presets
      ensures conf.entries == hadoopDefaults + DefaultConfiguration()
    {
      conf := new Configuration(hadoopDefaults);
      SetAll(conf, DefaultConfiguration());
      scaleFactors := presets;
    }

    /** Sets every entry of `m` on `conf`, one key at a time. */
    method SetAll(conf: Configuration, m: map<string, string>)
      modifies conf
      ensures conf.entries == old(conf.entries) + m
    {
      ghost var base := conf.entries;
      var remaining := m.Keys;
      RestrictNone(m, m.Keys);
      assert base + map[] == base;
      while remaining != {}
        invariant remaining <= m.Keys
        invariant conf.entries == base + Restrict(m, m.Keys - remaining)
        decreases |remaining|
      {
        var k :| k in remaining;
        RestrictStep(base, m, m.Keys - remaining, k);
        conf.Set(k, m[k]);
        DoneGrows(m.Keys, remaining, k);
        remaining := remaining - {k};
      }
      RestrictAll(m);
    }

    /** The property loop of `readConfig`: every property but the scale-factor name, set one at a time. */
    method SetExplicit(conf: Configuration, properties: map<string, string>)
      modifies conf
      ensures conf.entries == old(conf.entries) + Explicit(properties)
    {
      ghost var base := conf.entries;
      ghost var explicit := Explicit(properties);
      var remaining := properties.Keys;
      RestrictNone(explicit, properties.Keys);
      assert base + map[] == base;
      while remaining != {}
        invariant remaining <= properties.Keys
        invariant conf.entries == base + Restrict(explicit, properties.Keys - remaining)
        decreases |remaining|
      {
        var s :| s in remaining;
        ghost var done := properties.Keys - remaining;
        ExplicitStep(base, properties, done, s);
        if s != ScaleFactorKey {
          conf.Set(s, properties[s]);
        }
        DoneGrows(properties.Keys, remaining, s);
        remaining := remaining - {s};
      }
      RestrictOn(explicit, properties.Keys);
    }

    /**
     * `readConfig(conf, stream)` with the stream's properties already loaded:
     * applies the named preset, then every explicit property but the
     * scale-factor name, then forces one thread in standalone mode.
     */
    method ReadConfig(conf: Configuration, properties: map<string, string>) returns (outcome: Outcome<ConfigError>)
      modifies conf
      ensures outcome.Pass? ==> Layered(old(conf.entries), scaleFactors, properties) == Success(conf.entries)
      ensures outcome.Fail? ==> Layered(old(conf.entries), scaleFactors, properties) == Failure(outcome.error)
    {
      if ScaleFactorKey in properties {
        var name := properties[ScaleFactorKey];
        if name !in scaleFactors {
          return Fail(UnknownScaleFactor(name));
        }
        SetAll(conf, scaleFactors[name].properties);
      } else {
        assert conf.entries + map[] == conf.entries;
      }
      ghost var preset := conf.entries;
      SetExplicit(conf, properties);
      LayeredSteps(old(conf.entries), preset, conf.entries, scaleFactors, properties);
      var fs := conf.Get(DefaultFsKey);
      if fs.None? {
        return Fail(MissingDefaultFs);
      }
      if fs.value == LocalFs {
        conf.Set(NumThreadsKey, "1");
      }
      return Pass;
    }
  }

  /** The entries of `m` whose keys are in `ks`. */
  function Restrict(m: map<string, string>, ks: set<string>): map<string, string>
  {
    map k | k in m && k in ks :: m[k]
  }

  lemma RestrictNone(m: map<string, string>, ks: set<string>)
    ensures Restrict(m, ks - ks) == map[]
  {
  }

  lemma RestrictAll(m: map<string, string>)
    ensures Restrict(m, m.Keys - {}) == m
  {
  }

  lemma RestrictOn(m: map<string, string>, ks: set<string>)
    requires m.Keys <= ks
    ensures Restrict(m, ks - {}) == m
  {
  }

  /** Setting one more key of `m` extends the part of `m` already set. */
  lemma RestrictStep(base: map<string, string>, m: map<string, string>, done: set<string>, k: string)
    requires k in m
    ensures (base + Restrict(m, done))[k := m[k]] == base + Restrict(m, done + {k})
  {
  }

  lemma RestrictSkip(m: map<string, string>, done: set<string>, k: string)
    requires k !in m
    ensures Restrict(m, done + {k}) == Restrict(m, done)
  {
  }

  /** Taking `k` out of the names still to set adds it to the names already set. */
  lemma DoneGrows(all: set<string>, remaining: set<string>, k: string)
    requires k in remaining && remaining <= all
    ensures all - (remaining - {k}) == (all - remaining) + {k}
  {
  }

  /** One round of the property loop: every name is copied except the scale-factor name. */
  lemma ExplicitStep(base: map<string, string>, properties: map<string, string>, done: set<string>, s: string)
    requires s in properties
    ensures s != ScaleFactorKey ==> (base + Restrict(Explicit(properties), done))[s := properties[s]]
                                    == base + Restrict(Explicit(properties), done + {s})
    ensures s == ScaleFactorKey ==> Restrict(Explicit(properties), done + {s}) == Restrict(Explicit(properties), done)
  {
    if s != ScaleFactorKey {
      RestrictStep(base, Explicit(properties), done, s);
    } else {
      RestrictSkip(Explicit(properties), done, s);
    }
  }

  /** The states `readConfig` passes through, up to the standalone check. */
  lemma LayeredSteps(conf: map<string, string>, preset: map<string, string>, explicit: map<string, string>,
                     presets: map<string, ScaleFactor>, properties: map<string, string>)
    requires !(ScaleFactorKey in properties && properties[ScaleFactorKey] !in presets)
    requires preset == conf + Preset(presets, properties)
    requires explicit == preset + Explicit(properties)
    ensures DefaultFsKey !in explicit ==> Layered(conf, presets, properties) == Failure(MissingDefaultFs)
    ensures DefaultFsKey in explicit && explicit[DefaultFsKey] == LocalFs
            ==> Layered(conf, presets, properties) == Success(explicit[NumThreadsKey := "1"])
    ensures DefaultFsKey in explicit && explicit[DefaultFsKey] != LocalFs
            ==> Layered(conf, presets, properties) == Success(explicit)
  {
  }

  // ---------------------------------------------------------------------------
  // What the layering promises

  /** The run stops exactly when the properties name a scale factor that has no preset, or no file system is configured. */
  lemma LayeredFails(conf: map<string, string>, presets: map<string, ScaleFactor>, properties: map<string, string>)
    ensures Layered(conf, presets, properties).Failure? && Layered(conf, presets, properties).error.UnknownScaleFactor?
        <==> ScaleFactorKey in properties && properties[ScaleFactorKey] !in presets
    ensures Layered(conf, presets, properties) == Failure(MissingDefaultFs)
        <==> !(ScaleFactorKey in properties && properties[ScaleFactorKey] !in presets)
             && DefaultFsKey !in conf && DefaultFsKey !in Preset(presets, properties) && DefaultFsKey !in properties
  {
  }

  /** In standalone mode the configuration always runs on one thread, whatever the properties say. */
  lemma StandaloneOneThread(conf: map<string, string>, presets: map<string, ScaleFactor>, properties: map<string, string>)
    requires Layered(conf, presets, properties).Success?
    ensures var r := Layered(conf, presets, properties).value;
            r[DefaultFsKey] == LocalFs ==> r[NumThreadsKey] == "1"
  {
  }

  /**
   * Every explicit property other than the scale-factor name ends with its
   * property value, overriding the preset and the prior entries; the one
   * exception is the thread count in standalone mode.
   */
  lemma ExplicitWins(conf: map<string, string>, presets: map<string, ScaleFactor>, properties: map<string, string>,
                     k: string)
    requires Layered(conf, presets, properties).Success?
    requires k in properties && k != ScaleFactorKey
    requires k != NumThreadsKey || Layered(conf, presets, properties).value[DefaultFsKey] != LocalFs
    ensures Layered(conf, presets, properties).value[k] == properties[k]
  {
  }

  /**
   * A key the named preset sets and the properties do not ends with the
   * preset's value (the thread count in standalone mode excepted); a key
   * neither sets keeps its prior value, or stays unset.
   */
  lemma PresetThenPrior(conf: map<string, string>, presets: map<string, ScaleFactor>, properties: map<string, string>,
                        k: string)
    requires Layered(conf, presets, properties).Success?
    requires k !in Explicit(properties)
    requires k != NumThreadsKey || Layered(conf, presets, properties).value[DefaultFsKey] != LocalFs
    ensures k in Preset(presets, properties) ==> Layered(conf, presets, properties).value[k] == Preset(presets, properties)[k]
    ensures k !in Preset(presets, properties) ==>
              (k in Layered(conf, presets, properties).value <==> k in conf)
    ensures k !in Preset(presets, properties) && k in conf ==> Layered(conf, presets, properties).value[k] == conf[k]
  {
  }

  /** The scale-factor name itself is never copied from the properties: that key comes from the preset or the prior entries only. */
  lemma ScaleFactorKeyNotCopied(conf: map<string, string>, presets: map<string, ScaleFactor>,
                                properties: map<string, string>)
    requires Layered(conf, presets, properties).Success?
    ensures ScaleFactorKey in Layered(conf, presets, properties).value
        <==> ScaleFactorKey in conf || ScaleFactorKey in Preset(presets, properties)
  {
  }

  /** Reading the same properties a second time changes nothing. */
  lemma {:induction false} LayeredIdempotent(conf: map<string, string>, presets: map<string, ScaleFactor>,
                                             properties: map<string, string>)
    requires Layered(conf, presets, properties).Success?
    ensures Layered(Layered(conf, presets, properties).value, presets, properties) == Layered(conf, presets, properties)
  {
    var r := Layered(conf, presets, properties).value;
    var p := Preset(presets, properties);
    var e := Explicit(properties);
    var once := conf + p + e;
    var twice := r + p + e;
    assert DefaultFsKey in twice && twice[DefaultFsKey] == once[DefaultFsKey];
    if once[DefaultFsKey] == LocalFs {
      assert twice[NumThreadsKey := "1"] == r;
    } else {
      assert twice == r;
    }
  }
}
