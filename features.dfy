/** The camera's feature registry: named, hardware-backed properties that are
    read with `get` and written with `set`. The vendor SDK behind it is not
    modelled; a registry stores what it is given and returns it verbatim. */
module Features {
  import opened Wrappers

  /** The kinds of value a feature holds (floating-point features are not
      needed by the area-of-interest routine and are left out). */
  datatype Value = IntVal(i: int) | BoolVal(b: bool) | StrVal(s: string)

  /** One `set` call, as recorded in the registry's write log. */
  datatype Write = Write(name: string, value: Value)

  /** The names of the writes in `log`, in order. */
  function Names(log: seq<Write>): (r: seq<string>)
    ensures |r| == |log|
    ensures forall k :: 0 <= k < |log| ==> r[k] == log[k].name
  {
    if log == [] then [] else [log[0].name] + Names(log[1..])
  }

  /** The feature values after applying the writes of `log`, oldest first,
      to `values`. */
  function Replay(values: map<string, Value>, log: seq<Write>): (r: map<string, Value>)
    ensures values.Keys <= r.Keys
    decreases |log|
  {
    if log == [] then values else Replay(values[log[0].name := log[0].value], log[1..])
  }

  /** Replaying one more write updates that one feature. */
  lemma {:induction false} ReplaySnoc(values: map<string, Value>, log: seq<Write>, w: Write)
    ensures Replay(values, log + [w]) == Replay(values, log)[w.name := w.value]
    decreases |log|
  {
    if log != [] {
      assert (log + [w])[1..] == log[1..] + [w];
      ReplaySnoc(values[log[0].name := log[0].value], log[1..], w);
    }
  }

  /** Replaying two logs one after the other is replaying them joined. */
  lemma {:induction false} ReplayAppend(values: map<string, Value>, first: seq<Write>, second: seq<Write>)
    ensures Replay(values, first + second) == Replay(Replay(values, first), second)
    decreases |first|
  {
    if first != [] {
      assert (first + second)[0] == first[0];
      assert (first + second)[1..] == first[1..] + second;
      var next := values[first[0].name := first[0].value];
      ReplayAppend(next, first[1..], second);
      assert Replay(values, first) == Replay(next, first[1..]);
    } else {
      assert first + second == second;
    }
  }

  /** A write that no later write of the same feature overrides decides
      that feature's value: it is registered and holds the written value. */
  lemma ReplayLastWrite(values: map<string, Value>, log: seq<Write>, j: nat)
    requires j < |log|
    requires forall m :: j < m < |log| ==> log[m].name != log[j].name
    ensures log[j].name in Replay(values, log)
    ensures Replay(values, log)[log[j].name] == log[j].value
  {
    var w, later := log[j], log[j + 1..];
    assert log == log[..j] + [w] + later;
    ReplaySnoc(values, log[..j], w);
    ReplayAppend(values, log[..j] + [w], later);
    assert forall m :: 0 <= m < |later| ==> Names(later)[m] == log[j + 1 + m].name && log[j + 1 + m].name != w.name;
    ReplayUnwritten(Replay(values, log[..j] + [w]), later, w.name);
  }

  /** A feature that no write names keeps its value (or stays unregistered). */
  lemma {:induction false} ReplayUnwritten(values: map<string, Value>, log: seq<Write>, name: string)
    requires name !in Names(log)
    ensures name in Replay(values, log) <==> name in values
    ensures name in values ==> Replay(values, log)[name] == values[name]
    decreases |log|
  {
    if log != [] {
      assert Names(log) == [log[0].name] + Names(log[1..]);
      ReplayUnwritten(values[log[0].name := log[0].value], log[1..], name);
    }
  }

  /** How many of `names`, from the front, are registered in `values`. */
  function RegisteredPrefix(values: map<string, Value>, names: seq<string>): (k: nat)
    ensures k <= |names|
    ensures forall i :: 0 <= i < k ==> names[i] in values
    ensures k < |names| ==> names[k] !in values
  {
    if names == [] || names[0] !in values then 0 else 1 + RegisteredPrefix(values, names[1..])
  }

  /** All of `names` are registered exactly when the registered prefix is
      the whole sequence. */
  lemma RegisteredPrefixFull(values: map<string, Value>, names: seq<string>)
    ensures RegisteredPrefix(values, names) == |names| <==> forall n :: n in names ==> n in values
  {
    var k := RegisteredPrefix(values, names);
    if k < |names| {
      assert names[k] in names;
    }
  }

  class FeatureRegistry {
    /** Current value of every registered feature. */
    var values: map<string, Value>
    /** Every `set` call so far, oldest first. */
    var log: seq<Write>
    constructor (contents: map<string, Value>)
      ensures values == contents && log == []
    {
      values := contents;
      log := [];
    }

    /** `features[name].get()`; an unregistered name (a `KeyError` in the
        driver) yields `None`. */
    method Get(name: string) returns (v: Option<Value>)
      ensures v.Some? <==> name in values
      ensures v.Some? ==> v.value == values[name]
    {
      if name in values {
        v := Some(values[name]);
      } else {
        v := None;
      }
    }

    /** `features[name].set(value)`: overwrites the stored value of a
        registered feature and records the write; an unregistered name (a
        `KeyError` in the driver) changes nothing and yields `false`. */
    method Set(name: string, value: Value) returns (ok: bool)
      modifies this
      ensures ok <==> name in old(values)
      ensures values.Keys == old(values).Keys
      ensures ok ==> values == old(values)[name := value] && log == old(log) + [Write(name, value)]
      ensures !ok ==> values == old(values) && log == old(log)
    {
      ok := name in values;
      if ok {
        values := values[name := value];
        log := log + [Write(name, value)];
      }
    }
  }
}
