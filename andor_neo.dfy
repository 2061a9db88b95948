/** The Andor Neo camera daemon's area-of-interest routine `_set_aoi`: it
    reads the AOI configuration and the sensor size, fills in defaults,
    checks the binned AOI against the sensor, writes it to the feature
    registry and records the image channel's shape and pixel index
    mappings. */
module AndorNeo {
  import opened Wrappers
  import opened Features
  import opened AoiGeometry

  /** The AOI keys of the daemon's configuration: the binning specifier
      `aoi_binning` (such as "2x2") and the optional `aoi_width`,
      `aoi_left`, `aoi_height` and `aoi_top`. */
  datatype AoiConfig = AoiConfig(binning: string, geometry: Request)

  /** A channel shape `(rows, columns)` as read back from the registry. */
  type Shape = (Value, Value)

  /** The sensor-size features are integer features of the SDK. */
  predicate IntegerLimits(values: map<string, Value>) {
    && ("sensor_width" in values ==> values["sensor_width"].IntVal?)
    && ("sensor_height" in values ==> values["sensor_height"].IntVal?)
  }

  /** The AOI `_set_aoi` applies for this configuration and these registry
      contents, or the error it raises, in the order the routine meets them:
      the binning specifier, the two sensor-size reads, then the geometry. */
  function ConfiguredAoi(config: AoiConfig, values: map<string, Value>): (r: Result<Aoi, AoiError>)
    requires IntegerLimits(values)
    ensures r.Success? ==> 1 <= r.value.binning <= 9
    ensures r.Success? ==> "sensor_width" in values && "sensor_height" in values
    ensures r.Success? ==> WithinSensor(r.value, values["sensor_width"].i, values["sensor_height"].i)
    ensures ParseBinning(config.binning).Failure? ==> r == Failure(ParseBinning(config.binning).error)
    ensures ParseBinning(config.binning).Success? && "sensor_width" !in values ==> r == Failure(UnknownFeature("sensor_width"))
    ensures ParseBinning(config.binning).Success? && "sensor_width" in values && "sensor_height" !in values
            ==> r == Failure(UnknownFeature("sensor_height"))
  {
    var binning :- ParseBinning(config.binning);
    if "sensor_width" !in values then Failure(UnknownFeature("sensor_width"))
    else if "sensor_height" !in values then Failure(UnknownFeature("sensor_height"))
    else Plan(binning, config.geometry, values["sensor_width"].i, values["sensor_height"].i)
  }

  /** The features `_set_aoi` writes, in the order it writes them. */
  const AoiFeatures: seq<string> := ["aoi_binning", "aoi_width", "aoi_left", "aoi_height", "aoi_top"]

  /** The writes `_set_aoi` makes for a validated AOI: the binning first,
      because the camera checks size and offset against the active binning. */
  function AoiWrites(a: Aoi): (w: seq<Write>)
    requires 0 <= a.binning <= 9
    ensures Names(w) == AoiFeatures
  {
    [ Write("aoi_binning", StrVal(FormatBinning(a.binning))),
      Write("aoi_width", IntVal(a.width)),
      Write("aoi_left", IntVal(a.left)),
      Write("aoi_height", IntVal(a.height)),
      Write("aoi_top", IntVal(a.top)) ]
  }

  /** Replaying the AOI writes updates the five AOI features in order. */
  lemma ReplayAoiWrites(values: map<string, Value>, a: Aoi)
    requires 0 <= a.binning <= 9
    ensures Replay(values, AoiWrites(a))
            == values["aoi_binning" := StrVal(FormatBinning(a.binning))]["aoi_width" := IntVal(a.width)]
                     ["aoi_left" := IntVal(a.left)]["aoi_height" := IntVal(a.height)]["aoi_top" := IntVal(a.top)]
  {
    var w := AoiWrites(a);
    var v1 := values[w[0].name := w[0].value];
    var v2 := v1[w[1].name := w[1].value];
    var v3 := v2[w[2].name := w[2].value];
    var v4 := v3[w[3].name := w[3].value];
    var v5 := v4[w[4].name := w[4].value];
    assert Replay(v5, w[5..]) == v5;
    assert Replay(v4, w[4..]) == Replay(v5, w[5..]);
    assert Replay(v3, w[3..]) == Replay(v4, w[4..]);
    assert Replay(v2, w[2..]) == Replay(v3, w[3..]);
    assert Replay(v1, w[1..]) == Replay(v2, w[2..]);
    assert Replay(values, w) == Replay(v1, w[1..]);
  }

  /** The AOI writes change no feature outside the five AOI features. */
  lemma AoiWritesTouchOnlyAoiFeatures(values: map<string, Value>, a: Aoi, name: string)
    requires 0 <= a.binning <= 9 && name !in AoiFeatures
    ensures name in Replay(values, AoiWrites(a)) <==> name in values
    ensures name in values ==> Replay(values, AoiWrites(a))[name] == values[name]
  {
    ReplayUnwritten(values, AoiWrites(a), name);
  }

  /** Once the binning specifier parses and both sensor-size features are
      registered, the outcome is decided by the geometry alone. */
  lemma ConfiguredAoiIsPlan(config: AoiConfig, values: map<string, Value>)
    requires IntegerLimits(values)
    requires ParseBinning(config.binning).Success?
    requires "sensor_width" in values && "sensor_height" in values
    ensures ConfiguredAoi(config, values)
            == Plan(ParseBinning(config.binning).value, config.geometry, values["sensor_width"].i, values["sensor_height"].i)
  {
  }

  /** The pixel index mappings of an applied AOI: one entry per binned
      pixel (none for a negative count), entry i at offset + i * binning,
      and every entry on the sensor. */
  lemma AppliedMappings(config: AoiConfig, values: map<string, Value>)
    requires IntegerLimits(values)
    requires ConfiguredAoi(config, values).Success?
    ensures var a := ConfiguredAoi(config, values).value;
            var xs := AxisIndex(a.left, a.width, a.binning);
            var ys := AxisIndex(a.top, a.height, a.binning);
            && |xs| == (if a.width < 0 then 0 else a.width)
            && |ys| == (if a.height < 0 then 0 else a.height)
            && (forall i :: 0 <= i < |xs| ==> xs[i] == a.left + i * a.binning)
            && (forall i :: 0 <= i < |ys| ==> ys[i] == a.top + i * a.binning)
            && (forall x :: x in xs ==> a.left <= x <= values["sensor_width"].i - a.binning + 1)
            && (forall y :: y in ys ==> a.top <= y <= values["sensor_height"].i - a.binning + 1)
  {
    var a := ConfiguredAoi(config, values).value;
    AxisIndexWithinSensor(a.left, a.width, a.binning, values["sensor_width"].i);
    AxisIndexWithinSensor(a.top, a.height, a.binning, values["sensor_height"].i);
  }

  /** A 2560 x 2160 sensor binned "2x2" with no geometry configured: the
      whole sensor, 1280 x 1080 binned pixels. */
  lemma FullSensorScenario()
    ensures var values := map["sensor_width" := IntVal(2560), "sensor_height" := IntVal(2160)];
            var r := ConfiguredAoi(AoiConfig("2x2", Request(None, None, None, None)), values);
            r == Success(Aoi(2, 1280, 1, 1080, 1))
  {
    var values := map["sensor_width" := IntVal(2560), "sensor_height" := IntVal(2160)];
    FullSensorByDefault(2, 2560, 2160);
    ConfiguredAoiIsPlan(AoiConfig("2x2", Request(None, None, None, None)), values);
  }

  /** Width 1000 from column 2000 on a 2560-wide sensor reaches pixel 2999. */
  lemma WidthOverflowScenario()
    ensures var values := map["sensor_width" := IntVal(2560), "sensor_height" := IntVal(2160)];
            ConfiguredAoi(AoiConfig("1x1", Request(Some(1000), Some(2000), None, None)), values)
            == Failure(WidthOverflow(2999, 2560))
  {
  }

  /** Replaying one more write of a write sequence extends the replay of
      its prefix by that write. */
  lemma ReplayPrefixStep(values: map<string, Value>, w: seq<Write>, j: nat)
    requires j < |w|
    ensures w[..j + 1] == w[..j] + [w[j]]
    ensures Replay(values, w[..j + 1]) == Replay(values, w[..j])[w[j].name := w[j].value]
  {
    assert w[..j + 1] == w[..j] + [w[j]];
    ReplaySnoc(values, w[..j], w[j]);
  }

  class AndorNeo {
    /** `self.features`, the camera's feature registry. */
    const registry: FeatureRegistry
    /** The AOI keys of `self._config`. */
    const config: AoiConfig
    /** `self._channel_shapes`: channel name to shape. */
    var channelShapes: map<string, Shape>
    /** `self._mappings`: mapping name to pixel indices. */
    var mappings: map<string, seq<int>>

    constructor (registry: FeatureRegistry, config: AoiConfig)
      ensures this.registry == registry && this.config == config
      ensures channelShapes == map[] && mappings == map[]
    {
      this.registry := registry;
      this.config := config;
      channelShapes := map[];
      mappings := map[];
    }

    /** The validating half of `_set_aoi`: parse the binning, read the
        sensor size, fill in defaults, floor-divide by the binning and check
        both extents. Nothing is written. */
    method ResolveAoi() returns (r: Result<Aoi, AoiError>)
      requires IntegerLimits(registry.values)
      ensures r == ConfiguredAoi(config, registry.values)
    {
      var parsed := ParseBinning(config.binning);
      if parsed.Failure? {
        return Failure(parsed.error);
      }
      var binning := parsed.value;

      var maxWidth := registry.Get("sensor_width");
      if maxWidth.None? {
        return Failure(UnknownFeature("sensor_width"));
      }
      var maxHeight := registry.Get("sensor_height");
      if maxHeight.None? {
        return Failure(UnknownFeature("sensor_height"));
      }
      var sensorWidth, sensorHeight := maxWidth.value.i, maxHeight.value.i;

      // defaults: the top-left corner, and the rest of the sensor from there
      var left := if config.geometry.left.None? then 1 else config.geometry.left.value;
      var top := if config.geometry.top.None? then 1 else config.geometry.top.value;
      var width := if config.geometry.width.None? then sensorWidth - left + 1 else config.geometry.width.value;
      var height := if config.geometry.height.None? then sensorHeight - top + 1 else config.geometry.height.value;
      if binning == 0 {
        return Failure(ZeroBinning);
      }
      width := width / binning;
      height := height / binning;

      var wExtent := width * binning + (left - 1);
      var hExtent := height * binning + (top - 1);
      if wExtent > sensorWidth {
        return Failure(WidthOverflow(wExtent, sensorWidth));
      }
      if hExtent > sensorHeight {
        return Failure(HeightOverflow(hExtent, sensorHeight));
      }
      r := Success(Aoi(binning, width, left, height, top));
    }

    /** Write `w[j]`, the next of a sequence of writes of which `w[..j]`
        have been made since the registry held `v0` and had logged `log0`;
        it succeeds exactly while the names written so far are registered. */
    method WriteNext(w: seq<Write>, j: nat, ghost v0: map<string, Value>, ghost log0: seq<Write>) returns (ok: bool)
      requires j < |w| && j <= RegisteredPrefix(v0, Names(w))
      requires registry.log == log0 + w[..j] && registry.values == Replay(v0, w[..j])
      requires registry.values.Keys == v0.Keys
      modifies registry
      ensures registry.values.Keys == v0.Keys
      ensures ok <==> j < RegisteredPrefix(v0, Names(w))
      ensures ok ==> registry.log == log0 + w[..j + 1] && registry.values == Replay(v0, w[..j + 1])
      ensures !ok ==> registry.log == log0 + w[..j] && registry.values == Replay(v0, w[..j])
    {
      ReplayPrefixStep(v0, w, j);
      ok := registry.Set(w[j].name, w[j].value);
    }

    /** The five sets of `_set_aoi`, made one after another as long as
        their features are registered; `n` is how many took effect. The
        five statements of the driver are kept as five unrolled steps, not
        a loop, and `w` is left abstract so that the proof does not depend
        on the feature names. */
    method WriteInOrder(w: seq<Write>) returns (n: nat)
      requires |w| == 5
      modifies registry
      ensures n == RegisteredPrefix(old(registry.values), Names(w))
      ensures registry.log == old(registry.log) + w[..n]
      ensures registry.values == Replay(old(registry.values), w[..n])
    {
      ghost var v0, log0 := registry.values, registry.log;
      assert w[..0] == [];
      var ok := WriteNext(w, 0, v0, log0);
      if !ok {
        return 0;
      }
      ok := WriteNext(w, 1, v0, log0);
      if !ok {
        return 1;
      }
      ok := WriteNext(w, 2, v0, log0);
      if !ok {
        return 2;
      }
      ok := WriteNext(w, 3, v0, log0);
      if !ok {
        return 3;
      }
      ok := WriteNext(w, 4, v0, log0);
      if !ok {
        return 4;
      }
      n := 5;
    }

    /** The five AOI writes of `_set_aoi`, the binning first because the
        camera checks size and offset against the active binning. Writing an
        unregistered feature raises (a `KeyError` in the driver) after the
        writes before it have taken effect. */
    method WriteAoi(a: Aoi) returns (r: Outcome<AoiError>)
      requires 0 <= a.binning <= 9
      modifies registry
      ensures var k := RegisteredPrefix(old(registry.values), AoiFeatures);
              && registry.log == old(registry.log) + AoiWrites(a)[..k]
              && registry.values == Replay(old(registry.values), AoiWrites(a)[..k])
              && r == if k == |AoiFeatures| then Pass else Fail(UnknownFeature(AoiFeatures[k]))
    {
      var w := AoiWrites(a);
      var n := WriteInOrder(w);
      r := if n == |w| then Pass else Fail(UnknownFeature(w[n].name));
    }

    /** `_set_aoi`: every check happens before the first write, so a failed
        check leaves the registry and the object untouched; an unregistered
        AOI feature stops the writes part-way, before the shape and the
        mappings are recorded. */
    method SetAoi() returns (r: Outcome<AoiError>)
      requires IntegerLimits(registry.values)
      modifies this, registry
      ensures var plan := ConfiguredAoi(config, old(registry.values));
              plan.Failure? ==>
                && r == Fail(plan.error)
                && registry.values == old(registry.values)
                && registry.log == old(registry.log)
                && channelShapes == old(channelShapes)
                && mappings == old(mappings)
      ensures var plan := ConfiguredAoi(config, old(registry.values));
              var k := RegisteredPrefix(old(registry.values), AoiFeatures);
              plan.Success? ==>
                var a := plan.value;
                && registry.log == old(registry.log) + AoiWrites(a)[..k]
                && registry.values == Replay(old(registry.values), AoiWrites(a)[..k])
                && (k < |AoiFeatures| ==>
                      && r == Fail(UnknownFeature(AoiFeatures[k]))
                      && channelShapes == old(channelShapes)
                      && mappings == old(mappings))
                && (k == |AoiFeatures| ==>
                      && r == Pass
                      && channelShapes == map["image" := (IntVal(a.height), IntVal(a.width))]
                      && mappings == map["x_index" := AxisIndex(a.left, a.width, a.binning),
                                         "y_index" := AxisIndex(a.top, a.height, a.binning)])
    {
      var checked := ResolveAoi();
      if checked.Failure? {
        return Fail(checked.error);
      }
      var a := checked.value;
      r := WriteAoi(a);
      if r.Fail? {
        return;
      }
      assert AoiWrites(a)[..|AoiFeatures|] == AoiWrites(a);
      ReplayAoiWrites(old(registry.values), a);

      // the shape is read back from the registry, not taken from `a`
      var shapeHeight := registry.Get("aoi_height");
      var shapeWidth := registry.Get("aoi_width");
      channelShapes := map["image" := (shapeHeight.value, shapeWidth.value)];

      var xIndex := Arange(a.left, a.left + a.width * a.binning, a.binning);
      var yIndex := Arange(a.top, a.top + a.height * a.binning, a.binning);
      mappings := map["x_index" := xIndex, "y_index" := yIndex];
    }
  }
}
