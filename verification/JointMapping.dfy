/**
  The affine mapping between public and model joints. Positions are mapped by
  scale and offset, velocities by the scale, efforts by its inverse.
*/
module JointMapping {
  import opened MotionTypes

  datatype Entry = Entry(model: string, public: string, scale: real, offset: real, finite: bool) {
    function Name(toModel: bool): string { if toModel then public else model }
  }

  /** `finite` is false when some value is an infinity or not a number. */
  datatype JointState = JointState(
    names: seq<string>, positions: seq<real>, velocities: seq<real>, efforts: seq<real>, finite: bool)

  datatype Outcome = Converted(state: JointState) | Refused

  predicate WellFormed(entry: Entry) {
    entry.model != "" && entry.public != "" && entry.finite && AbsReal(entry.scale) >= 0.000000000001
  }

  /** Both indexes are exact: every entry is found by its names, and nothing else is. */
  ghost predicate ValidEntries(entries: seq<Entry>) {
    && (forall i :: 0 <= i < |entries| ==> WellFormed(entries[i]))
    && (forall i, j :: 0 <= i < j < |entries| ==>
         entries[i].model != entries[j].model && entries[i].public != entries[j].public)
  }

  ghost predicate Indexes(index: map<string, nat>, entries: seq<Entry>, toModel: bool) {
    && (forall name :: name in index ==> index[name] < |entries| && entries[index[name]].Name(toModel) == name)
    && (forall i :: 0 <= i < |entries| ==> entries[i].Name(toModel) in index && index[entries[i].Name(toModel)] == i)
  }

  // ---- What a conversion yields ----

  predicate Shaped(input: JointState) {
    && input.names != [] && |input.positions| == |input.names|
    && (input.velocities == [] || |input.velocities| == |input.names|)
    && (input.efforts == [] || |input.efforts| == |input.names|)
  }

  ghost predicate Known(entries: seq<Entry>, names: seq<string>, toModel: bool) {
    forall i :: 0 <= i < |names| ==> exists k :: 0 <= k < |entries| && entries[k].Name(toModel) == names[i]
  }

  ghost predicate Acceptable(entries: seq<Entry>, input: JointState, toModel: bool) {
    Shaped(input) && input.finite && Unique(input.names) && Known(entries, input.names, toModel)
  }

  function Find(names: seq<string>, name: string): (i: nat)
    requires name in names
    ensures i < |names| && names[i] == name
  {
    if names[0] == name then 0 else 1 + Find(names[1..], name)
  }

  lemma {:induction false} FindUnique(names: seq<string>, i: nat)
    requires Unique(names) && i < |names|
    ensures Find(names, names[i]) == i
  {
    if names[0] == names[i] {
    } else {
      assert names[1..][i - 1] == names[i];
      FindUnique(names[1..], i - 1);
    }
  }

  function Position(entry: Entry, p: real, toModel: bool): real
    requires entry.scale != 0.0
  {
    if toModel then entry.scale * p + entry.offset else (p - entry.offset) / entry.scale
  }

  function Velocity(entry: Entry, v: real, toModel: bool): real
    requires entry.scale != 0.0
  {
    if toModel then entry.scale * v else v / entry.scale
  }

  function Effort(entry: Entry, e: real, toModel: bool): real
    requires entry.scale != 0.0
  {
    if toModel then e / entry.scale else entry.scale * e
  }

  /** One joint more: the image of the input at `i`. */
  function Extended(before: JointState, entry: Entry, input: JointState, i: nat, toModel: bool): JointState
    requires Shaped(input) && i < |input.names| && WellFormed(entry)
  {
    JointState(
      before.names + [entry.Name(!toModel)],
      before.positions + [Position(entry, input.positions[i], toModel)],
      if input.velocities == [] then before.velocities
      else before.velocities + [Velocity(entry, input.velocities[i], toModel)],
      if input.efforts == [] then before.efforts else before.efforts + [Effort(entry, input.efforts[i], toModel)],
      true)
  }

  /** The output of the first `n` entries: those named by the input, in the order of the entries. */
  ghost function Mapped(entries: seq<Entry>, input: JointState, toModel: bool, n: nat): (output: JointState)
    requires ValidEntries(entries) && Shaped(input) && n <= |entries|
  {
    if n == 0 then JointState([], [], [], [], true)
    else
      var before, entry := Mapped(entries, input, toModel, n - 1), entries[n - 1];
      if entry.Name(toModel) !in input.names then before
      else Extended(before, entry, input, Find(input.names, entry.Name(toModel)), toModel)
  }

  ghost function Conversion(entries: seq<Entry>, input: JointState, toModel: bool): Outcome
    requires ValidEntries(entries)
  {
    if entries == [] then Converted(input)
    else if Acceptable(entries, input, toModel) then Converted(Mapped(entries, input, toModel, |entries|))
    else Refused
  }

  /** Wherever one joint stands on both sides: its model position is scaled and offset, its power the same. */
  ghost predicate Corresponds(entries: seq<Entry>, publicState: JointState, modelState: JointState) {
    && Shaped(publicState) && Shaped(modelState)
    && (publicState.velocities == [] <==> modelState.velocities == [])
    && (publicState.efforts == [] <==> modelState.efforts == [])
    && forall k, i, j | 0 <= k < |entries| && 0 <= i < |publicState.names| && 0 <= j < |modelState.names| ::
         publicState.names[i] == entries[k].public && modelState.names[j] == entries[k].model ==>
           Corresponding(entries[k], publicState, modelState, i, j)
  }

  predicate Corresponding(entry: Entry, publicState: JointState, modelState: JointState, i: nat, j: nat)
    requires Shaped(publicState) && Shaped(modelState) && i < |publicState.names| && j < |modelState.names|
    requires publicState.velocities == [] <==> modelState.velocities == []
    requires publicState.efforts == [] <==> modelState.efforts == []
  {
    && modelState.positions[j] == entry.scale * publicState.positions[i] + entry.offset
    && (publicState.velocities != [] ==> modelState.velocities[j] == entry.scale * publicState.velocities[i])
    && (publicState.efforts != [] ==> publicState.efforts[i] == entry.scale * modelState.efforts[j])
  }

  // ---- The class ----

  class PublicJointMapping {
    var entries: seq<Entry>
    var modelIndex: map<string, nat>
    var publicIndex: map<string, nat>

    ghost predicate Valid()
      reads this
    {
      ValidEntries(entries) && Indexes(modelIndex, entries, false) && Indexes(publicIndex, entries, true)
    }

    constructor ()
      ensures Valid() && entries == []
    {
      entries, modelIndex, publicIndex := [], map[], map[];
    }

    /** Loading succeeds exactly when the document is well formed and no name occurs twice. */
    method Load(schemaOk: bool, items: seq<Entry>) returns (ok: bool)
      requires Valid()
      modifies this
      ensures ok <==> schemaOk && items != [] && ValidEntries(old(entries) + items)
      ensures var all := old(entries) + items;
              ok <==>
              && schemaOk && items != []
              && (forall i :: 0 <= i < |all| ==>
                    && all[i].model != "" && all[i].public != "" && all[i].finite
                    && (all[i].scale >= 0.000000000001 || all[i].scale <= -0.000000000001))
              && forall i, j :: 0 <= i < j < |all| ==> all[i].model != all[j].model && all[i].public != all[j].public
      ensures ok ==> Valid() && entries == old(entries) + items
    {
      EntriesInValues(entries + items);
      hide ValidEntries, Indexes, WellFormed;
      if !schemaOk || items == [] { return false; }
      for k := 0 to |items|
        invariant Valid() && entries == old(entries) + items[..k]
      {
        assert items[..k + 1] == items[..k] + [items[k]];
        ghost var all := old(entries) + items;
        assert all[..|entries| + 1] == entries + [items[k]];
        ok := Add(items[k]);
        if !ok {
          PrefixIsValid(all, |entries| + 1);
          return;
        }
      }
      assert items[..|items|] == items;
      return true;
    }

    static lemma EntriesInValues(all: seq<Entry>)
      ensures ValidEntries(all) <==>
        && (forall i :: 0 <= i < |all| ==>
              && all[i].model != "" && all[i].public != "" && all[i].finite
              && (all[i].scale >= 0.000000000001 || all[i].scale <= -0.000000000001))
        && forall i, j :: 0 <= i < j < |all| ==> all[i].model != all[j].model && all[i].public != all[j].public
    {
    }

    static lemma PrefixIsValid(all: seq<Entry>, n: nat)
      requires n <= |all|
      ensures ValidEntries(all) ==> ValidEntries(all[..n])
    {
    }

    method Add(entry: Entry) returns (ok: bool)
      requires Valid()
      modifies this
      ensures Valid() && (ok <==> ValidEntries(old(entries) + [entry]))
      ensures entries == if ok then old(entries) + [entry] else old(entries)
    {
      Extends(entries, modelIndex, publicIndex, entry);
      if !WellFormed(entry) || entry.model in modelIndex || entry.public in publicIndex { return false; }
      hide ValidEntries, Indexes, WellFormed;
      modelIndex := modelIndex[entry.model := |entries|];
      publicIndex := publicIndex[entry.public := |entries|];
      entries := entries + [entry];
      return true;
    }

    static lemma Extends(entries: seq<Entry>, modelIndex: map<string, nat>, publicIndex: map<string, nat>, entry: Entry)
      requires ValidEntries(entries) && Indexes(modelIndex, entries, false) && Indexes(publicIndex, entries, true)
      ensures ValidEntries(entries + [entry]) <==>
        WellFormed(entry) && entry.model !in modelIndex && entry.public !in publicIndex
      ensures ValidEntries(entries + [entry]) ==>
        Indexes(modelIndex[entry.model := |entries|], entries + [entry], false) &&
        Indexes(publicIndex[entry.public := |entries|], entries + [entry], true)
    {
      hide WellFormed;
      var all := entries + [entry];
      assert all[|entries|] == entry;
      assert forall i :: 0 <= i < |entries| ==> all[i] == entries[i];
      assert entry.model in modelIndex ==> entries[modelIndex[entry.model]].model == entry.model;
      assert entry.public in publicIndex ==> entries[publicIndex[entry.public]].public == entry.public;
      if WellFormed(entry) && entry.model !in modelIndex && entry.public !in publicIndex {
        forall i | 0 <= i < |entries| ensures entries[i].model != entry.model && entries[i].public != entry.public {
          assert entries[i].Name(false) in modelIndex && entries[i].Name(true) in publicIndex;
        }
      }
    }

    method Convert(input: JointState, toModel: bool) returns (result: Outcome)
      requires Valid()
      ensures result == Conversion(entries, input, toModel)
      ensures entries != [] && result.Converted? ==>
        if toModel then Corresponds(entries, input, result.state) else Corresponds(entries, result.state, input)
    {
      result := ConvertNamed(input, toModel);
      if entries != [] && result.Converted? { ConversionCorresponds(entries, input, result, toModel); }
    }

    method ConvertNamed(input: JointState, toModel: bool) returns (result: Outcome)
      requires Valid()
      ensures result == Conversion(entries, input, toModel)
      ensures ValidEntries(entries)
    {
      if entries == [] { return Converted(input); }
      if !Shaped(input) { return Refused; }
      var index := if toModel then publicIndex else modelIndex;
      var ok, present := Locate(input.names, toModel, index);
      if !ok || !input.finite { return Refused; }
      var output := Collect(input, toModel, index, present);
      return Converted(output);
    }

    /** Where each named entry occurs in the input. */
    method Locate(names: seq<string>, toModel: bool, index: map<string, nat>) returns (ok: bool, present: map<nat, nat>)
      requires Valid() && index == if toModel then publicIndex else modelIndex
      ensures ok <==> Unique(names) && Known(entries, names, toModel)
      ensures ok ==> forall k :: k in present ==>
        k < |entries| && present[k] < |names| && names[present[k]] == entries[k].Name(toModel)
      ensures ok ==> forall j :: 0 <= j < |names| ==> names[j] in index && index[names[j]] in present
    {
      hide WellFormed;
      present := map[];
      for i := 0 to |names|
        invariant Unique(names[..i]) && Known(entries, names[..i], toModel)
        invariant forall k :: k in present ==>
          k < |entries| && present[k] < i && names[present[k]] == entries[k].Name(toModel)
        invariant forall j :: 0 <= j < i ==>
          names[j] in index && index[names[j]] in present && present[index[names[j]]] == j
      {
        var name := names[i];
        assert names[..i + 1] == names[..i] + [name];
        if name !in index {
          assert names[i] == name;
          return false, present;
        }
        if index[name] in present { return false, present; }
        present := present[index[name] := i];
      }
      assert names[..|names|] == names;
      return true, present;
    }

    /** The entries in their own order, whatever the order of the input. */
    method Collect(input: JointState, toModel: bool, index: map<string, nat>, present: map<nat, nat>)
      returns (output: JointState)
      requires Valid() && Shaped(input) && Unique(input.names) && index == if toModel then publicIndex else modelIndex
      requires forall k :: k in present ==>
        k < |entries| && present[k] < |input.names| && input.names[present[k]] == entries[k].Name(toModel)
      requires forall j :: 0 <= j < |input.names| ==> input.names[j] in index && index[input.names[j]] in present
      ensures output == Mapped(entries, input, toModel, |entries|)
    {
      hide Extended, WellFormed, ValidEntries;
      output := JointState([], [], [], [], true);
      for k := 0 to |entries|
        invariant output == Mapped(entries, input, toModel, k)
      {
        var entry := entries[k];
        MappedStep(entries, input, toModel, k + 1);
        assert index[entry.Name(toModel)] == k;
        if k in present {
          FindUnique(input.names, present[k]);
          output := Extended(output, entry, input, present[k], toModel);
        } else {
          assert entry.Name(toModel) !in input.names;
        }
      }
    }
  }

  // ---- What the output contains ----

  /** The values of one joint in a state. */
  datatype Values = Values(position: real, velocity: Option<real>, effort: Option<real>)

  ghost function ValuesOf(state: JointState, name: string): Values
    requires Shaped(state) && name in state.names
  {
    var i := Find(state.names, name);
    Values(
      state.positions[i],
      if state.velocities == [] then None else Some(state.velocities[i]),
      if state.efforts == [] then None else Some(state.efforts[i]))
  }

  function Image(entry: Entry, values: Values, toModel: bool): Values
    requires entry.scale != 0.0
  {
    Values(
      Position(entry, values.position, toModel),
      if values.velocity.None? then None else Some(Velocity(entry, values.velocity.value, toModel)),
      if values.effort.None? then None else Some(Effort(entry, values.effort.value, toModel)))
  }

  lemma ImageBack(entry: Entry, values: Values, toModel: bool)
    requires entry.scale != 0.0
    ensures Image(entry, Image(entry, values, toModel), !toModel) == values
  {
    if values.velocity.Some? { ScaledBack(entry.scale, values.velocity.value); }
    if values.effort.Some? { ScaledBack(entry.scale, values.effort.value); }
    PositionBack(entry, values.position, toModel);
    hide Position;
    assert values.velocity.Some? ==>
      Velocity(entry, Velocity(entry, values.velocity.value, toModel), !toModel) == values.velocity.value;
    assert values.effort.Some? ==>
      Effort(entry, Effort(entry, values.effort.value, toModel), !toModel) == values.effort.value;
  }

  lemma PositionBack(entry: Entry, p: real, toModel: bool)
    requires entry.scale != 0.0
    ensures Position(entry, Position(entry, p, toModel), !toModel) == p
  {
    if toModel {
      ScaledBack(entry.scale, p);
      assert entry.scale * p + entry.offset - entry.offset == entry.scale * p;
    } else {
      ScaledBack(entry.scale, p - entry.offset);
    }
  }

  lemma ScaledBack(s: real, x: real)
    requires s != 0.0
    ensures (s * x) / s == x && s * (x / s) == x
  {
  }

  /** What one more entry adds to the output. */
  lemma MappedStep(entries: seq<Entry>, input: JointState, toModel: bool, n: nat)
    requires ValidEntries(entries) && Shaped(input) && 0 < n <= |entries|
    ensures WellFormed(entries[n - 1])
    ensures var before, output, entry :=
      Mapped(entries, input, toModel, n - 1), Mapped(entries, input, toModel, n), entries[n - 1];
            if entry.Name(toModel) in input.names
            then output == Extended(before, entry, input, Find(input.names, entry.Name(toModel)), toModel)
            else output == before
  {
  }

  /** Every joint of the output is the image of one entry's input. */
  lemma {:induction false} MappedIndex(entries: seq<Entry>, input: JointState, toModel: bool, n: nat, i: nat)
    returns (k: nat)
    requires ValidEntries(entries) && Shaped(input) && n <= |entries| && i < |Mapped(entries, input, toModel, n).names|
    ensures k < n && MappedFrom(entries, input, toModel, Mapped(entries, input, toModel, n), i, k)
    decreases n
  {
    hide MappedFrom, Extended, ValuesOf, ValidEntries, WellFormed;
    MappedShape(entries, input, toModel, n - 1);
    MappedStep(entries, input, toModel, n);
    var before, entry := Mapped(entries, input, toModel, n - 1), entries[n - 1];
    hide Mapped;
    if entry.Name(toModel) in input.names {
      LastIsMapped(entries, input, toModel, before, n - 1);
    }
    if i < |before.names| {
      k := MappedIndex(entries, input, toModel, n - 1, i);
      if entry.Name(toModel) in input.names { EarlierStaysMapped(entries, input, toModel, before, n - 1, i, k); }
    } else {
      k := n - 1;
    }
  }

  /** Every entry the input names is in the output. */
  lemma {:induction false} MappedHas(entries: seq<Entry>, input: JointState, toModel: bool, n: nat, k: nat)
    requires ValidEntries(entries) && Shaped(input) && k < n <= |entries| && entries[k].Name(toModel) in input.names
    ensures entries[k].Name(!toModel) in Mapped(entries, input, toModel, n).names
    decreases n
  {
    hide Extended, ValuesOf, ValidEntries, WellFormed, MappedFrom;
    MappedShape(entries, input, toModel, n - 1);
    MappedStep(entries, input, toModel, n);
    var before, output, entry :=
      Mapped(entries, input, toModel, n - 1), Mapped(entries, input, toModel, n), entries[n - 1];
    hide Mapped;
    if entry.Name(toModel) in input.names {
      LastIsMapped(entries, input, toModel, before, n - 1);
    }
    if k < n - 1 { MappedHas(entries, input, toModel, n - 1, k); }
  }

  lemma LastIsMapped(entries: seq<Entry>, input: JointState, toModel: bool, before: JointState, n: nat)
    requires ValidEntries(entries) && Shaped(input) && n < |entries| && entries[n].Name(toModel) in input.names
    requires WellFormed(entries[n])
    requires |before.positions| == |before.names|
    requires |before.velocities| == (if input.velocities == [] then 0 else |before.names|)
    requires |before.efforts| == (if input.efforts == [] then 0 else |before.names|)
    ensures var output := Extended(before, entries[n], input, Find(input.names, entries[n].Name(toModel)), toModel);
            && MappedFrom(entries, input, toModel, output, |before.names|, n)
            && output.names == before.names + [entries[n].Name(!toModel)]
            && output.names[|before.names|] == entries[n].Name(!toModel)
            && output.names[..|before.names|] == before.names
  {
    hide Position, Velocity, Effort, ValidEntries;
  }

  lemma EarlierStaysMapped(
    entries: seq<Entry>, input: JointState, toModel: bool, before: JointState, n: nat, i: nat, k: nat)
    requires ValidEntries(entries) && Shaped(input) && n < |entries| && entries[n].Name(toModel) in input.names
    requires WellFormed(entries[n])
    requires MappedFrom(entries, input, toModel, before, i, k)
    ensures MappedFrom(
      entries, input, toModel,
      Extended(before, entries[n], input, Find(input.names, entries[n].Name(toModel)), toModel), i, k)
  {
    hide Position, Velocity, Effort, ValidEntries;
  }

  lemma {:induction false} MappedShape(entries: seq<Entry>, input: JointState, toModel: bool, n: nat)
    requires ValidEntries(entries) && Shaped(input) && n <= |entries|
    ensures var output := Mapped(entries, input, toModel, n);
      && output.finite && |output.positions| == |output.names|
      && |output.velocities| == (if input.velocities == [] then 0 else |output.names|)
      && |output.efforts| == (if input.efforts == [] then 0 else |output.names|)
    decreases n
  {
    hide Position, Velocity, Effort;
    if n > 0 {
      MappedShape(entries, input, toModel, n - 1);
      assert WellFormed(entries[n - 1]);
    }
  }

  /** The output at `i` is the image of the input of the entry at `k`. */
  ghost predicate MappedFrom(entries: seq<Entry>, input: JointState, toModel: bool, output: JointState, i: int, k: int)
    requires ValidEntries(entries) && Shaped(input)
  {
    && 0 <= k < |entries| && 0 <= i < |output.names| && |output.positions| == |output.names|
    && (input.velocities != [] ==> i < |output.velocities|) && (input.efforts != [] ==> i < |output.efforts|)
    && entries[k].scale != 0.0 && entries[k].Name(toModel) in input.names
    && output.names[i] == entries[k].Name(!toModel)
    && var values := ValuesOf(input, entries[k].Name(toModel));
       && output.positions[i] == Position(entries[k], values.position, toModel)
       && (input.velocities != [] ==> output.velocities[i] == Velocity(entries[k], values.velocity.value, toModel))
       && (input.efforts != [] ==> output.efforts[i] == Effort(entries[k], values.effort.value, toModel))
  }

  lemma MappedNamesUnique(entries: seq<Entry>, input: JointState, toModel: bool, i: nat, j: nat)
    requires ValidEntries(entries) && Shaped(input) && i < j < |Mapped(entries, input, toModel, |entries|).names|
    ensures Mapped(entries, input, toModel, |entries|).names[i] != Mapped(entries, input, toModel, |entries|).names[j]
  {
    MappedInOrder(entries, input, toModel, |entries|, i, j);
  }

  lemma {:induction false} MappedInOrder(entries: seq<Entry>, input: JointState, toModel: bool, n: nat, i: nat, j: nat)
    requires ValidEntries(entries) && Shaped(input) && n <= |entries|
    requires i < j < |Mapped(entries, input, toModel, n).names|
    ensures Mapped(entries, input, toModel, n).names[i] != Mapped(entries, input, toModel, n).names[j]
    decreases n
  {
    hide Extended, ValuesOf, ValidEntries, WellFormed, MappedFrom;
    MappedShape(entries, input, toModel, n - 1);
    MappedStep(entries, input, toModel, n);
    var before, entry := Mapped(entries, input, toModel, n - 1), entries[n - 1];
    hide Mapped;
    if entry.Name(toModel) in input.names {
      LastIsMapped(entries, input, toModel, before, n - 1);
    }
    if j < |before.names| {
      MappedInOrder(entries, input, toModel, n - 1, i, j);
    } else {
      var k := MappedIndex(entries, input, toModel, n - 1, i);
      ImageName(entries, input, toModel, before, i, k);
      DistinctEntries(entries, k, n - 1, !toModel);
    }
  }

  lemma ImageName(entries: seq<Entry>, input: JointState, toModel: bool, output: JointState, i: nat, k: nat)
    requires ValidEntries(entries) && Shaped(input) && MappedFrom(entries, input, toModel, output, i, k)
    ensures k < |entries| && i < |output.names| && output.names[i] == entries[k].Name(!toModel)
    ensures entries[k].Name(toModel) in input.names
  {
  }

  /** The output of an accepted input: unique names, and for each entry named by the input its image. */
  lemma OutputIsImage(entries: seq<Entry>, input: JointState, toModel: bool, k: nat)
    requires ValidEntries(entries) && Acceptable(entries, input, toModel) && k < |entries|
    ensures var output := Mapped(entries, input, toModel, |entries|);
            && Shaped(output) && output.finite && Unique(output.names)
            && (entries[k].Name(toModel) in input.names <==> entries[k].Name(!toModel) in output.names)
            && entries[k].scale != 0.0
            && (entries[k].Name(toModel) in input.names ==>
                  ValuesOf(output, entries[k].Name(!toModel)) ==
                    Image(entries[k], ValuesOf(input, entries[k].Name(toModel)), toModel))
  {
    OutputShaped(entries, input, toModel);
    MappedShape(entries, input, toModel, |entries|);
    assert WellFormed(entries[k]);
    hide Mapped, ValidEntries, Position, Velocity, Effort;
    var output := Mapped(entries, input, toModel, |entries|);
    var name := entries[k].Name(!toModel);
    if entries[k].Name(toModel) in input.names { MappedHas(entries, input, toModel, |entries|, k); }
    if name in output.names {
      var i := Find(output.names, name);
      var m := MappedIndex(entries, input, toModel, |entries|, i);
      ImageName(entries, input, toModel, output, i, m);
      SameEntry(entries, m, k, !toModel);
    }
  }

  /** One joint's values on both sides. */
  lemma ImageInValues(entry: Entry, values: Values, toModel: bool)
    requires entry.scale != 0.0
    ensures var image := Image(entry, values, toModel);
            var (public, model) := if toModel then (values, image) else (image, values);
            && model.position == entry.scale * public.position + entry.offset
            && (public.velocity.Some? <==> model.velocity.Some?) && (public.effort.Some? <==> model.effort.Some?)
            && (public.velocity.Some? ==> model.velocity.value == entry.scale * public.velocity.value)
            && (public.effort.Some? ==> public.effort.value == entry.scale * model.effort.value)
  {
    if toModel {
      if values.effort.Some? { ScaledBack(entry.scale, values.effort.value); }
    } else {
      ScaledBack(entry.scale, values.position - entry.offset);
      if values.velocity.Some? { ScaledBack(entry.scale, values.velocity.value); }
    }
  }

  lemma ValuesAt(state: JointState, i: nat)
    requires Shaped(state) && Unique(state.names) && i < |state.names|
    ensures ValuesOf(state, state.names[i]) == Values(
      state.positions[i],
      if state.velocities == [] then None else Some(state.velocities[i]),
      if state.efforts == [] then None else Some(state.efforts[i]))
  {
    FindUnique(state.names, i);
  }

  /** The two sides of one joint, wherever it stands in them. */
  lemma ImageAt(
    entries: seq<Entry>, input: JointState, output: JointState, toModel: bool, k: nat, i: nat, j: nat)
    requires ValidEntries(entries) && Acceptable(entries, input, toModel) && k < |entries|
    requires output == Mapped(entries, input, toModel, |entries|)
    requires i < |input.names| && j < |output.names|
    requires input.names[i] == entries[k].Name(toModel) && output.names[j] == entries[k].Name(!toModel)
    ensures Shaped(output) && entries[k].scale != 0.0
    ensures ValuesOf(output, output.names[j]) == Image(entries[k], ValuesOf(input, input.names[i]), toModel)
    ensures ValuesOf(output, output.names[j]) == Values(
      output.positions[j],
      if output.velocities == [] then None else Some(output.velocities[j]),
      if output.efforts == [] then None else Some(output.efforts[j]))
    ensures ValuesOf(input, input.names[i]) == Values(
      input.positions[i],
      if input.velocities == [] then None else Some(input.velocities[i]),
      if input.efforts == [] then None else Some(input.efforts[i]))
  {
    hide Mapped, Image, ValuesOf, WellFormed;
    OutputIsImage(entries, input, toModel, k);
    ValuesAt(input, i);
    ValuesAt(output, j);
  }

  /** What a conversion yields, in the values of both sides. */
  lemma ConversionCorresponds(entries: seq<Entry>, input: JointState, result: Outcome, toModel: bool)
    requires ValidEntries(entries) && entries != []
    requires result.Converted? && result == Conversion(entries, input, toModel)
    ensures if toModel then Corresponds(entries, input, result.state) else Corresponds(entries, result.state, input)
  {
    hide Mapped, ValidEntries, Image, ValuesOf;
    var output := result.state;
    OutputShaped(entries, input, toModel);
    MappedShape(entries, input, toModel, |entries|);
    var publicState, modelState := if toModel then input else output, if toModel then output else input;
    forall k: nat, i: nat, j: nat | k < |entries| && i < |publicState.names| && j < |modelState.names| &&
      publicState.names[i] == entries[k].public && modelState.names[j] == entries[k].model
      ensures Corresponding(entries[k], publicState, modelState, i, j)
    {
      var here, there := if toModel then i else j, if toModel then j else i;
      ImageAt(entries, input, output, toModel, k, here, there);
      ImageInValues(entries[k], ValuesOf(input, input.names[here]), toModel);
    }
  }

  lemma OutputShaped(entries: seq<Entry>, input: JointState, toModel: bool)
    requires ValidEntries(entries) && Acceptable(entries, input, toModel)
    ensures var output := Mapped(entries, input, toModel, |entries|);
            Shaped(output) && output.finite && Unique(output.names)
  {
    hide Mapped, ValidEntries;
    MappedShape(entries, input, toModel, |entries|);
    var output := Mapped(entries, input, toModel, |entries|);
    assert input.names[0] in input.names;
    var k :| 0 <= k < |entries| && entries[k].Name(toModel) == input.names[0];
    MappedHas(entries, input, toModel, |entries|, k);
    forall i, j | 0 <= i < j < |output.names| ensures output.names[i] != output.names[j] {
      MappedNamesUnique(entries, input, toModel, i, j);
    }
  }

  lemma SameEntry(entries: seq<Entry>, m: nat, k: nat, toModel: bool)
    requires ValidEntries(entries) && m < |entries| && k < |entries|
    requires entries[m].Name(toModel) == entries[k].Name(toModel)
    ensures m == k
  {
  }

  lemma DistinctEntries(entries: seq<Entry>, m: nat, k: nat, toModel: bool)
    requires ValidEntries(entries) && m < |entries| && k < |entries| && m != k
    ensures entries[m].Name(toModel) != entries[k].Name(toModel)
  {
  }

  ghost predicate Restores(back: JointState, input: JointState)
    requires Shaped(input)
  {
    && Shaped(back)
    && (forall name :: name in input.names <==> name in back.names)
    && (forall name :: name in input.names ==> ValuesOf(back, name) == ValuesOf(input, name))
  }

  /** Converting and converting back restores every named position, velocity and effort. */
  lemma RoundTrip(entries: seq<Entry>, input: JointState, toModel: bool)
    requires ValidEntries(entries) && entries != [] && Acceptable(entries, input, toModel)
    ensures var there := Mapped(entries, input, toModel, |entries|);
            && Conversion(entries, input, toModel) == Converted(there)
            && Acceptable(entries, there, !toModel)
            && var back := Mapped(entries, there, !toModel, |entries|);
               Conversion(entries, there, !toModel) == Converted(back) && Restores(back, input)
  {
    hide Mapped, ValuesOf, Image, WellFormed;
    var there := Mapped(entries, input, toModel, |entries|);
    ThereIsAcceptable(entries, input, toModel);
    var back := Mapped(entries, there, !toModel, |entries|);
    forall k: nat | k < |entries|
      ensures Shaped(back) && (entries[k].Name(toModel) in input.names <==> entries[k].Name(toModel) in back.names)
      ensures entries[k].Name(toModel) in input.names ==>
        ValuesOf(back, entries[k].Name(toModel)) == ValuesOf(input, entries[k].Name(toModel))
    {
      OutputIsImage(entries, input, toModel, k);
      OutputIsImage(entries, there, !toModel, k);
      if entries[k].Name(toModel) in input.names {
        ImageBack(entries[k], ValuesOf(input, entries[k].Name(toModel)), toModel);
      }
    }
    OutputIsImage(entries, there, !toModel, 0);
    NamesAreEntries(entries, there, !toModel);
    forall name ensures name in input.names <==> name in back.names {
      if name in input.names {
        var k :| 0 <= k < |entries| && entries[k].Name(toModel) == name;
      }
      if name in back.names {
        var k :| 0 <= k < |entries| && entries[k].Name(toModel) == name;
      }
    }
    forall name | name in input.names ensures ValuesOf(back, name) == ValuesOf(input, name) {
      var k :| 0 <= k < |entries| && entries[k].Name(toModel) == name;
    }
  }

  lemma NamesAreEntries(entries: seq<Entry>, input: JointState, toModel: bool)
    requires ValidEntries(entries) && Acceptable(entries, input, toModel)
    ensures forall name :: name in Mapped(entries, input, toModel, |entries|).names ==>
              exists k :: 0 <= k < |entries| && entries[k].Name(!toModel) == name
  {
    var output := Mapped(entries, input, toModel, |entries|);
    forall name | name in output.names ensures exists k :: 0 <= k < |entries| && entries[k].Name(!toModel) == name {
      var i := Find(output.names, name);
      var k := MappedIndex(entries, input, toModel, |entries|, i);
      ImageName(entries, input, toModel, output, i, k);
    }
  }

  lemma ThereIsAcceptable(entries: seq<Entry>, input: JointState, toModel: bool)
    requires ValidEntries(entries) && entries != [] && Acceptable(entries, input, toModel)
    ensures Acceptable(entries, Mapped(entries, input, toModel, |entries|), !toModel)
  {
    hide Mapped;
    OutputIsImage(entries, input, toModel, 0);
    NamesAreEntries(entries, input, toModel);
    var names := Mapped(entries, input, toModel, |entries|).names;
    assert forall i :: 0 <= i < |names| ==> names[i] in names;
  }

  /** The output depends on the values by name only, not on the order of the input. */
  lemma {:induction false} OrderDoesNotMatter(
    entries: seq<Entry>, one: JointState, two: JointState, toModel: bool, n: nat)
    requires ValidEntries(entries) && Shaped(one) && Shaped(two) && n <= |entries|
    requires forall name :: name in one.names <==> name in two.names
    requires forall name :: name in one.names ==> ValuesOf(one, name) == ValuesOf(two, name)
    requires (one.velocities == [] <==> two.velocities == []) && (one.efforts == [] <==> two.efforts == [])
    ensures Mapped(entries, one, toModel, n) == Mapped(entries, two, toModel, n)
    decreases n
  {
    if n > 0 {
      OrderDoesNotMatter(entries, one, two, toModel, n - 1);
      assert WellFormed(entries[n - 1]);
      var name := entries[n - 1].Name(toModel);
      if name in one.names {
        assert ValuesOf(one, name) == ValuesOf(two, name);
      }
    }
  }

  // ---- Power ----

  function Sum(values: seq<real>): real {
    if values == [] then 0.0 else Sum(values[..|values| - 1]) + values[|values| - 1]
  }

  /** Velocity times effort, joint by joint. */
  function Powers(state: JointState): (p: seq<real>)
    requires |state.velocities| == |state.efforts|
    ensures |p| == |state.velocities| && forall i :: 0 <= i < |p| ==> p[i] == state.velocities[i] * state.efforts[i]
  {
    seq(|state.velocities|, i requires 0 <= i < |state.velocities| => state.velocities[i] * state.efforts[i])
  }

  /** The sum over the first `n` entries of what the input gives each of them. */
  function EntrySum(entries: seq<Entry>, names: seq<string>, values: seq<real>, toModel: bool, n: nat): real
    requires |names| == |values| && n <= |entries|
  {
    if n == 0 then 0.0
    else EntrySum(entries, names, values, toModel, n - 1) + EntryTerm(entries[n - 1], names, values, toModel)
  }

  function EntryTerm(entry: Entry, names: seq<string>, values: seq<real>, toModel: bool): real
    requires |names| == |values|
  {
    if entry.Name(toModel) in names then values[Find(names, entry.Name(toModel))] else 0.0
  }

  lemma ProductKept(entry: Entry, v: real, e: real, toModel: bool)
    requires entry.scale != 0.0
    ensures Velocity(entry, v, toModel) * Effort(entry, e, toModel) == v * e
  {
    var s := entry.scale;
    if toModel {
      ScaledBack(s, e);
      assert (s * v) * (e / s) == v * (s * (e / s));
    } else {
      ScaledBack(s, v);
      assert (v / s) * (s * e) == (s * (v / s)) * e;
    }
  }

  lemma PowersGrow(before: JointState, after: JointState, v: real, e: real)
    requires |before.velocities| == |before.efforts|
    requires after.velocities == before.velocities + [v] && after.efforts == before.efforts + [e]
    ensures Sum(Powers(after)) == Sum(Powers(before)) + v * e
  {
    var p, q := Powers(after), Powers(before);
    forall i | 0 <= i < |q| ensures p[i] == q[i] {
      assert after.velocities[i] == before.velocities[i] && after.efforts[i] == before.efforts[i];
    }
    assert p[..|p| - 1] == q;
  }

  /** One joint more adds the power it has on the input side. */
  lemma PowerStep(before: JointState, entry: Entry, input: JointState, i: nat, toModel: bool)
    requires Shaped(input) && i < |input.names| && WellFormed(entry)
    requires |input.velocities| == |input.efforts| == |input.names| && |before.velocities| == |before.efforts|
    ensures var output := Extended(before, entry, input, i, toModel);
            |output.velocities| == |output.efforts| && Sum(Powers(output)) == Sum(Powers(before)) + Powers(input)[i]
  {
    hide Position, Velocity, Effort, Sum;
    var v, e := input.velocities[i], input.efforts[i];
    ProductKept(entry, v, e, toModel);
    PowersGrow(
      before, Extended(before, entry, input, i, toModel), Velocity(entry, v, toModel), Effort(entry, e, toModel));
  }

  lemma {:induction false} MappedPower(entries: seq<Entry>, input: JointState, toModel: bool, n: nat)
    requires ValidEntries(entries) && Shaped(input) && n <= |entries|
    requires |input.velocities| == |input.efforts| == |input.names|
    ensures var output := Mapped(entries, input, toModel, n);
            |output.velocities| == |output.efforts|
              && Sum(Powers(output)) == EntrySum(entries, input.names, Powers(input), toModel, n)
    decreases n
  {
    MappedShape(entries, input, toModel, n);
    if n > 0 {
      MappedPower(entries, input, toModel, n - 1);
      MappedStep(entries, input, toModel, n);
      hide Mapped, Extended, ValidEntries, Sum, Powers;
      var before, entry := Mapped(entries, input, toModel, n - 1), entries[n - 1];
      if entry.Name(toModel) in input.names {
        PowerStep(before, entry, input, Find(input.names, entry.Name(toModel)), toModel);
      }
    }
  }

  lemma FindFront(names: seq<string>, name: string)
    requires names != [] && name in names && names[|names| - 1] != name
    ensures name in names[..|names| - 1] && Find(names[..|names| - 1], name) == Find(names, name)
    decreases |names|
  {
    if names[0] != name {
      var rest := names[1..];
      assert rest[Find(rest, name)] == name;
      FindFront(rest, name);
      assert names[..|names| - 1][1..] == rest[..|rest| - 1];
    }
  }

  /** One more input value adds exactly itself, at the one entry it names. */
  lemma {:induction false} EntrySumGrows(
    entries: seq<Entry>, names: seq<string>, values: seq<real>, toModel: bool, n: nat, at: nat)
    requires ValidEntries(entries) && |names| == |values| && names != [] && Unique(names) && n <= |entries|
    requires at < |entries| && entries[at].Name(toModel) == names[|names| - 1]
    ensures var last := |names| - 1;
            EntrySum(entries, names, values, toModel, n) ==
            EntrySum(entries, names[..last], values[..last], toModel, n) + (if at < n then values[last] else 0.0)
    decreases n
  {
    if n > 0 {
      EntrySumGrows(entries, names, values, toModel, n - 1, at);
      var last, name := |names| - 1, entries[n - 1].Name(toModel);
      if n - 1 == at {
        FindUnique(names, last);
        assert name !in names[..last];
      } else {
        DistinctEntries(entries, at, n - 1, toModel);
        if name in names { FindFront(names, name); }
      }
    }
  }

  lemma {:induction false} EntrySumIsSum(entries: seq<Entry>, names: seq<string>, values: seq<real>, toModel: bool)
    requires ValidEntries(entries) && |names| == |values| && Unique(names) && Known(entries, names, toModel)
    ensures EntrySum(entries, names, values, toModel, |entries|) == Sum(values)
    decreases |names|
  {
    if names == [] {
      NothingSums(entries, values, toModel, |entries|);
    } else {
      var last := |names| - 1;
      var at :| 0 <= at < |entries| && entries[at].Name(toModel) == names[last];
      EntrySumIsSum(entries, names[..last], values[..last], toModel);
      EntrySumGrows(entries, names, values, toModel, |entries|, at);
    }
  }

  lemma {:induction false} NothingSums(entries: seq<Entry>, values: seq<real>, toModel: bool, n: nat)
    requires values == [] && n <= |entries|
    ensures EntrySum(entries, [], values, toModel, n) == 0.0
    decreases n
  {
    if n > 0 { NothingSums(entries, values, toModel, n - 1); }
  }

  /** The sum of velocity times effort is the same on both sides. */
  lemma PowerIsPreserved(entries: seq<Entry>, input: JointState, toModel: bool)
    requires ValidEntries(entries) && Acceptable(entries, input, toModel)
    requires |input.velocities| == |input.efforts| == |input.names|
    ensures var output := Mapped(entries, input, toModel, |entries|);
            |output.velocities| == |output.efforts| && Sum(Powers(output)) == Sum(Powers(input))
  {
    MappedPower(entries, input, toModel, |entries|);
    EntrySumIsSum(entries, input.names, Powers(input), toModel);
  }
}
