/**
 * The manifest resolver of cftdeploy/manifest.py: the `CFManifest` class,
 * which turns a manifest document into the parameter list and the payload
 * sent to CloudFormation. The provider is a `describe` function and a
 * resource `listing`, as in Stack; `createApi` stands for `create_stack`.
 *
 * The resolution is specified by functions on values (`Resolve`,
 * `CftPayload`); the class's methods do it step by step, with the loops of
 * the source, and are proved to give what those functions give.
 */
module Manifest {

  import opened Wrappers
  import opened Strings
  import opened Faults
  import opened PyDict
  import opened PyValue
  import opened Stack
  import opened Template

  // ------------------------------------------------------------ static parameters

  /** The text a static parameter is sent as: `str(v).lower()` for a bool, `json.dumps` for a list, `str` otherwise. */
  function Coerce(v: Value): string {
    if v.Bool? then Lower(PyStr(v)) else if v.List? then Dumps(v) else PyStr(v)
  }

  /** A bool becomes exactly "true" or "false", a list its JSON text (read back by `Parse`), the rest their `str`. */
  lemma CoerceCases(v: Value)
    ensures v.Bool? ==> Coerce(v) == (if v.b then "true" else "false")
    ensures v.List? ==> Parse(Coerce(v)) == Some(v)
    ensures !v.Bool? && !v.List? ==> Coerce(v) == PyStr(v)
  {
    if v.Bool? {
      var r := Lower(PyStr(v));
      if v.b {
        assert r[0] == 't' && r[1] == 'r' && r[2] == 'u' && r[3] == 'e';
      } else {
        assert r[0] == 'f' && r[1] == 'a' && r[2] == 'l' && r[3] == 's' && r[4] == 'e';
      }
    } else if v.List? {
      DumpsRoundTrip(v);
    }
  }

  function EntryName(e: (string, Value)): string {
    e.0
  }

  /** A static entry's text; a null value is left out (with a warning). */
  function StaticText(e: (string, Value)): Option<string> {
    if e.1.Null? then None else Some(Coerce(e.1))
  }

  /**
   * The `param_dict` of the `Parameters` section. `document['Parameters']`
   * raises KeyError when the key is absent; a null section adds nothing; a
   * section that is not a mapping has no `items`.
   */
  function StaticParameters(doc: Dict<string, Value>): Result<Dict<string, string>, Fault> {
    match Get(doc, "Parameters")
    case None => Err(KeyError("Parameters"))
    case Some(p) =>
      if p.Null? then Ok([])
      else if p.Map? then Ok(Collect(p.entries, EntryName, StaticText))
      else Err(AttributeError("items"))
  }

  /** A static parameter is present exactly when some entry for it has a non-null value. */
  lemma StaticPresent(es: seq<(string, Value)>, k: string)
    ensures Get(Collect(es, EntryName, StaticText), k).Some? <==>
      exists i :: 0 <= i < |es| && es[i].0 == k && !es[i].1.Null?
  {
    CollectHasKey(es, EntryName, StaticText, k);
    assert forall i :: 0 <= i < |es| ==> EntryName(es[i]) == es[i].0 && (StaticText(es[i]).Some? <==> !es[i].1.Null?);
  }

  /** Its text is the coerced value of the last such entry. */
  lemma StaticValue(es: seq<(string, Value)>, i: nat)
    requires i < |es| && !es[i].1.Null?
    requires forall j :: i < j < |es| && es[j].0 == es[i].0 ==> es[j].1.Null?
    ensures Get(Collect(es, EntryName, StaticText), es[i].0) == Some(Coerce(es[i].1))
  {
    CollectGetLast(es, EntryName, StaticText, i);
  }

  // ------------------------------------------------------------ dependent stacks

  /** A stack of `stack_map`: the name its CFStack was made with, and the attributes its `get` calls set. */
  datatype Handle = Handle(name: string, view: StackView)

  const Unfetched: StackView := StackView(None, None, None, None)

  /**
   * One pass of the `DependentStacks` loop: a CFStack for the name, then
   * its `get`. A name that is not a string is refused by botocore before
   * any request; a stack not found raises CFStackDoesNotExistError; the
   * ClientErrors of `get` are re-raised.
   */
  function Lookup(sm: Dict<string, Handle>, alias: string, name: Value, describe: string -> DescribeReply)
    : Result<Dict<string, Handle>, Fault>
  {
    if !name.Str? then Err(ParamValidation("StackName"))
    else
      var (g, v) := Refresh(Unfetched, name.s, describe);
      if g.Err? then Err(g.error)
      else if g.value.None? then Err(StackDoesNotExist(name.s))
      else Ok(Put(sm, alias, Handle(name.s, v)))
  }

  /** The whole loop: `stack_map` after the entries, or the first failure. */
  function Dependents(es: seq<(string, Value)>, describe: string -> DescribeReply): Result<Dict<string, Handle>, Fault> {
    if es == [] then Ok([])
    else
      var sm :- Dependents(es[..|es| - 1], describe);
      Lookup(sm, es[|es| - 1].0, es[|es| - 1].1, describe)
  }

  /** The `DependentStacks` section: absent or null gives an empty `stack_map`. */
  function DependentStacks(doc: Dict<string, Value>, describe: string -> DescribeReply): Result<Dict<string, Handle>, Fault> {
    match Get(doc, "DependentStacks")
    case None => Ok([])
    case Some(d) =>
      if d.Null? then Ok([])
      else if d.Map? then Dependents(d.entries, describe)
      else Err(AttributeError("items"))
  }

  /** Once a pass fails, the loop ends with that failure. */
  lemma {:induction false} DependentsStuck(es: seq<(string, Value)>, i: nat, describe: string -> DescribeReply)
    requires i <= |es| && Dependents(es[..i], describe).Err?
    ensures Dependents(es, describe) == Dependents(es[..i], describe)
    decreases |es|
  {
    if i < |es| {
      var pre := es[..|es| - 1];
      assert pre[..i] == es[..i];
      DependentsStuck(pre, i, describe);
    } else {
      assert es[..i] == es;
    }
  }

  /**
   * A dependent stack that cannot be found ends the resolution with
   * CFStackDoesNotExistError naming it, whatever the later entries.
   */
  lemma DependentMissing(es: seq<(string, Value)>, i: nat, describe: string -> DescribeReply)
    requires i < |es| && Dependents(es[..i], describe).Ok?
    requires es[i].1.Str? && describe(es[i].1.s) == Described([])
    ensures Dependents(es, describe) == Err(StackDoesNotExist(es[i].1.s))
  {
    assert es[..i + 1][..i] == es[..i];
    DependentsStuck(es, i + 1, describe);
  }

  /** Every stack in a resolved `stack_map` was found: its StackId is stored, and each alias of the section is in it. */
  lemma {:induction false} DependentsFound(es: seq<(string, Value)>, describe: string -> DescribeReply)
    requires Dependents(es, describe).Ok?
    ensures forall i :: 0 <= i < |Dependents(es, describe).value| ==> Dependents(es, describe).value[i].1.view.stackId.Some?
    ensures forall i :: 0 <= i < |es| ==> HasKey(Dependents(es, describe).value, es[i].0)
  {
    if es != [] {
      var n := |es| - 1;
      var pre := es[..n];
      var sm := Dependents(pre, describe).value;
      DependentsFound(pre, describe);
      var (g, v) := Refresh(Unfetched, es[n].1.s, describe);
      var h := Handle(es[n].1.s, v);
      var sm' := Put(sm, es[n].0, h);
      assert Dependents(es, describe) == Ok(sm');
      PutValues(sm, es[n].0, h);
      forall i | 0 <= i < |es|
        ensures HasKey(sm', es[i].0)
      {
        if es[i].0 == es[n].0 {
          PutGet(sm, es[n].0, h);
        } else {
          assert pre[i] == es[i];
          PutOther(sm, es[n].0, h, es[i].0);
        }
      }
    }
  }

  /** Each value after `d[k] = v` is `v` or one `d` held. */
  lemma {:induction false} PutValues<K(!new), V>(d: Dict<K, V>, k: K, v: V)
    ensures forall i :: 0 <= i < |Put(d, k, v)| ==> Put(d, k, v)[i].1 == v || exists j :: 0 <= j < |d| && d[j].1 == Put(d, k, v)[i].1
  {
    if d != [] && d[0].0 != k {
      PutValues(d[1..], k, v);
      var r := Put(d, k, v);
      forall i | 0 <= i < |r|
        ensures r[i].1 == v || exists j :: 0 <= j < |d| && d[j].1 == r[i].1
      {
        if i == 0 {
          assert d[0].1 == r[0].1;
        } else {
          assert r[i] == Put(d[1..], k, v)[i - 1];
          if r[i].1 != v {
            var j :| 0 <= j < |d[1..]| && d[1..][j].1 == r[i].1;
            assert d[j + 1].1 == r[i].1;
          }
        }
      }
    } else if d != [] {
      var r := Put(d, k, v);
      forall i | 0 <= i < |r|
        ensures r[i].1 == v || exists j :: 0 <= j < |d| && d[j].1 == r[i].1
      {
        if i > 0 {
          assert d[i].1 == r[i].1;
        }
      }
    }
  }

  // ------------------------------------------------------------ sourced parameters

  /** `param_dict` and `stack_map` as the `SourcedParameters` loop goes. */
  datatype Resolution = Resolution(params: Dict<string, string>, stacks: Dict<string, Handle>)

  function UnpackError(n: nat): Fault {
    if n > 3 then ValueError("too many values to unpack (expected 3)")
    else ValueError("not enough values to unpack (expected 3, got " + NatToString(n) + ")")
  }

  /**
   * Where a reference `alias.section.id` points: the value found (None when
   * the entry is skipped: an alias not in `stack_map` or an unknown
   * section), and `stack_map` afterwards, since `get_parameters` and
   * `get_outputs` call `get` on the stack first. `get_resources` lists the
   * stack's StackId without a `get`.
   */
  function Find(ref: string, stacks: Dict<string, Handle>, describe: string -> DescribeReply, listing: string -> Listing)
    : Result<(Option<string>, Dict<string, Handle>), Fault>
  {
    var parts := Split(ref, '.');
    if |parts| != 3 then Err(UnpackError(|parts|))
    else match Get(stacks, parts[0])
      case None => Ok((None, stacks))
      case Some(h) =>
        if parts[1] == "Parameters" || parts[1] == "Outputs" then
          var found := if parts[1] == "Parameters" then ParametersAfter(h.view, h.name, describe)
                       else OutputsAfter(h.view, h.name, describe);
          var stacks' := Put(stacks, parts[0], Handle(h.name, Refresh(h.view, h.name, describe).1));
          if found.Err? then Err(found.error)
          else if !HasKey(found.value, parts[2]) then Err(StackLookup)
          else Ok((Get(found.value, parts[2]), stacks'))
        else if parts[1] == "Resources" then
          if h.view.stackId.None? then Err(AttributeError("StackId"))
          else
            var found := Collect(AllPages(listing(h.view.stackId.value)), ResourceKey, ResourceValue);
            if !HasKey(found, parts[2]) then Err(StackLookup)
            else Ok((Get(found, parts[2]), stacks))
        else Ok((None, stacks))
  }

  /** One pass of the loop, for the entry `k: v`; `v.split` needs a string. */
  function Source(st: Resolution, k: string, v: Value, describe: string -> DescribeReply, listing: string -> Listing)
    : Result<Resolution, Fault>
  {
    if !v.Str? then Err(AttributeError("split"))
    else
      var f :- Find(v.s, st.stacks, describe, listing);
      Ok(Resolution(PutIf(st.params, k, f.0), f.1))
  }

  /** The whole loop. */
  function Sourced(es: seq<(string, Value)>, st: Resolution, describe: string -> DescribeReply, listing: string -> Listing)
    : Result<Resolution, Fault>
  {
    if es == [] then Ok(st)
    else
      var st' :- Sourced(es[..|es| - 1], st, describe, listing);
      Source(st', es[|es| - 1].0, es[|es| - 1].1, describe, listing)
  }

  /** The `SourcedParameters` section; absent or null leaves everything as it is. */
  function SourcedParameters(doc: Dict<string, Value>, st: Resolution, describe: string -> DescribeReply,
                             listing: string -> Listing)
    : Result<Resolution, Fault>
  {
    match Get(doc, "SourcedParameters")
    case None => Ok(st)
    case Some(s) =>
      if s.Null? then Ok(st)
      else if s.Map? then Sourced(s.entries, st, describe, listing)
      else Err(AttributeError("items"))
  }

  lemma {:induction false} SourcedStuck(es: seq<(string, Value)>, i: nat, st: Resolution,
                                        describe: string -> DescribeReply, listing: string -> Listing)
    requires i <= |es| && Sourced(es[..i], st, describe, listing).Err?
    ensures Sourced(es, st, describe, listing) == Sourced(es[..i], st, describe, listing)
    decreases |es|
  {
    if i < |es| {
      var pre := es[..|es| - 1];
      assert pre[..i] == es[..i];
      SourcedStuck(pre, i, st, describe, listing);
    } else {
      assert es[..i] == es;
    }
  }

  /** A reference whose three parts hold no '.' splits back into them. */
  lemma ReferenceParts(alias: string, section: string, id: string)
    requires '.' !in alias && '.' !in section && '.' !in id
    ensures Split(alias + "." + section + "." + id, '.') == [alias, section, id]
  {
    SplitJoin([alias, section, id], '.');
    assert Join([alias, section, id], '.') == alias + "." + section + "." + id by {
      assert Join([section, id], '.') == section + "." + id by {
        assert Join([id], '.') == id;
      }
    }
  }

  /**
   * How a reference is handled: it must split into exactly three parts; an
   * unknown alias or section is skipped and changes nothing; in each of
   * Parameters, Outputs and Resources an id that is there gives its value
   * and an id missing from it raises StackLookupException.
   */
  lemma FindCases(ref: string, stacks: Dict<string, Handle>, describe: string -> DescribeReply, listing: string -> Listing)
    ensures var parts := Split(ref, '.');
      var r := Find(ref, stacks, describe, listing);
      && (|parts| != 3 ==> r.Err? && r.error.ValueError?)
      && (|parts| == 3 && !HasKey(stacks, parts[0]) ==> r == Ok((None, stacks)))
      && (|parts| == 3 && HasKey(stacks, parts[0]) && parts[1] !in ["Parameters", "Outputs", "Resources"] ==>
            r == Ok((None, stacks)))
    ensures var parts := Split(ref, '.');
      var r := Find(ref, stacks, describe, listing);
      |parts| == 3 && HasKey(stacks, parts[0]) && parts[1] == "Parameters" ==>
        var h := Get(stacks, parts[0]).value;
        var found := ParametersAfter(h.view, h.name, describe);
        && (found.Err? ==> r == Err(found.error))
        && (found.Ok? && !HasKey(found.value, parts[2]) ==> r == Err(StackLookup))
        && (found.Ok? && HasKey(found.value, parts[2]) ==>
              r.Ok? && r.value.0 == Get(found.value, parts[2]) && r.value.0.Some?)
    ensures var parts := Split(ref, '.');
      var r := Find(ref, stacks, describe, listing);
      |parts| == 3 && HasKey(stacks, parts[0]) && parts[1] == "Outputs" ==>
        var h := Get(stacks, parts[0]).value;
        var found := OutputsAfter(h.view, h.name, describe);
        && (found.Err? ==> r == Err(found.error))
        && (found.Ok? && !HasKey(found.value, parts[2]) ==> r == Err(StackLookup))
        && (found.Ok? && HasKey(found.value, parts[2]) ==>
              r.Ok? && r.value.0 == Get(found.value, parts[2]) && r.value.0.Some?)
    ensures var parts := Split(ref, '.');
      var r := Find(ref, stacks, describe, listing);
      |parts| == 3 && HasKey(stacks, parts[0]) && parts[1] == "Resources" ==>
        var h := Get(stacks, parts[0]).value;
        && (h.view.stackId.None? ==> r == Err(AttributeError("StackId")))
        && (h.view.stackId.Some? ==>
              var found := Collect(AllPages(listing(h.view.stackId.value)), ResourceKey, ResourceValue);
              && (!HasKey(found, parts[2]) ==> r == Err(StackLookup))
              && (HasKey(found, parts[2]) ==> r == Ok((Get(found, parts[2]), stacks)) && Get(found, parts[2]).Some?))
  {
  }

  /** A reference that resolves sets its key to the value found, whatever the static value was. */
  lemma SourceSets(st: Resolution, k: string, v: Value, describe: string -> DescribeReply, listing: string -> Listing)
    requires v.Str? && Find(v.s, st.stacks, describe, listing).Ok?
    requires Find(v.s, st.stacks, describe, listing).value.0.Some?
    ensures Source(st, k, v, describe, listing).Ok?
    ensures Get(Source(st, k, v, describe, listing).value.params, k) == Find(v.s, st.stacks, describe, listing).value.0
  {
    PutGet(st.params, k, Find(v.s, st.stacks, describe, listing).value.0.value);
  }

  /** The loop leaves a key alone that no entry names. */
  lemma {:induction false} SourcedOther(es: seq<(string, Value)>, st: Resolution, describe: string -> DescribeReply,
                                        listing: string -> Listing, k: string)
    requires Sourced(es, st, describe, listing).Ok?
    requires forall i :: 0 <= i < |es| ==> es[i].0 != k
    ensures Get(Sourced(es, st, describe, listing).value.params, k) == Get(st.params, k)
  {
    if es != [] {
      var n := |es| - 1;
      var pre := es[..n];
      assert forall i :: 0 <= i < |pre| ==> pre[i] == es[i];
      SourcedOther(pre, st, describe, listing, k);
      var st' := Sourced(pre, st, describe, listing).value;
      var f := Find(es[n].1.s, st'.stacks, describe, listing).value;
      if f.0.Some? {
        PutOther(st'.params, es[n].0, f.0.value, k);
      }
    }
  }

  /** The loop keeps the keys of `param_dict` unique. */
  lemma {:induction false} SourcedUnique(es: seq<(string, Value)>, st: Resolution, describe: string -> DescribeReply,
                                         listing: string -> Listing)
    requires UniqueKeys(st.params) && Sourced(es, st, describe, listing).Ok?
    ensures UniqueKeys(Sourced(es, st, describe, listing).value.params)
  {
    if es != [] {
      var n := |es| - 1;
      SourcedUnique(es[..n], st, describe, listing);
      var st' := Sourced(es[..n], st, describe, listing).value;
      var f := Find(es[n].1.s, st'.stacks, describe, listing).value;
      if f.0.Some? {
        PutUnique(st'.params, es[n].0, f.0.value);
      }
    }
  }

  /** The loop over all entries is the loop over the first `i`, then over the rest from where it left off. */
  lemma {:induction false} SourcedSplit(es: seq<(string, Value)>, i: nat, st: Resolution,
                                        describe: string -> DescribeReply, listing: string -> Listing)
    requires i <= |es| && Sourced(es[..i], st, describe, listing).Ok?
    ensures Sourced(es, st, describe, listing) ==
      Sourced(es[i..], Sourced(es[..i], st, describe, listing).value, describe, listing)
    decreases |es|
  {
    if i == |es| {
      assert es[..i] == es;
      assert es[i..] == [];
    } else {
      SliceLast(es, i);
      SourcedSplit(es[..|es| - 1], i, st, describe, listing);
    }
  }

  // ------------------------------------------------------------ overrides and the list

  /** The override loop: each `k: v` of the override dict assigned in turn. */
  function Overridden(d: Dict<string, string>, ov: Dict<string, string>): Dict<string, string> {
    if ov == [] then d
    else Put(Overridden(d, ov[..|ov| - 1]), ov[|ov| - 1].0, ov[|ov| - 1].1)
  }

  /** An override wins over whatever the key held. */
  lemma {:induction false} OverrideWins(d: Dict<string, string>, ov: Dict<string, string>, i: nat)
    requires i < |ov| && forall j :: i < j < |ov| ==> ov[j].0 != ov[i].0
    ensures Get(Overridden(d, ov), ov[i].0) == Some(ov[i].1)
  {
    var n := |ov| - 1;
    var pre := ov[..n];
    if i == n {
      PutGet(Overridden(d, pre), ov[n].0, ov[n].1);
    } else {
      assert pre[i] == ov[i];
      assert forall j :: i < j < |pre| ==> pre[j] == ov[j];
      OverrideWins(d, pre, i);
      PutOther(Overridden(d, pre), ov[n].0, ov[n].1, ov[i].0);
    }
  }

  /** A key the overrides do not name keeps its value. */
  lemma {:induction false} OverrideKeeps(d: Dict<string, string>, ov: Dict<string, string>, k: string)
    requires forall j :: 0 <= j < |ov| ==> ov[j].0 != k
    ensures Get(Overridden(d, ov), k) == Get(d, k)
  {
    if ov != [] {
      var n := |ov| - 1;
      var pre := ov[..n];
      assert forall j :: 0 <= j < |pre| ==> pre[j] == ov[j];
      OverrideKeeps(d, pre, k);
      PutOther(Overridden(d, pre), ov[n].0, ov[n].1, k);
    }
  }

  lemma {:induction false} OverriddenUnique(d: Dict<string, string>, ov: Dict<string, string>)
    requires UniqueKeys(d)
    ensures UniqueKeys(Overridden(d, ov))
  {
    if ov != [] {
      var n := |ov| - 1;
      OverriddenUnique(d, ov[..n]);
      PutUnique(Overridden(d, ov[..n]), ov[n].0, ov[n].1);
    }
  }

  /**
   * `param_dict` at the end of `fetch_parameters`: the static values, then
   * the sourced ones, then the overrides. `DependsOnStacks` is refused
   * before any stack is looked up.
   */
  function Resolve(doc: Dict<string, Value>, override: Option<Dict<string, string>>,
                   describe: string -> DescribeReply, listing: string -> Listing)
    : Result<Dict<string, string>, Fault>
  {
    var base :- StaticParameters(doc);
    if HasKey(doc, "DependsOnStacks") then Err(NotImplemented)
    else
      var stacks :- DependentStacks(doc, describe);
      var res :- SourcedParameters(doc, Resolution(base, stacks), describe, listing);
      Ok(if override.Some? then Overridden(res.params, override.value) else res.params)
  }

  /**
   * A sourced value replaces the static one: when entry `i` is the last
   * `SourcedParameters` entry for `k`, its reference resolves to `x` in the
   * state the loop has reached, and no override names `k`, the resolved
   * parameters give `k` the value `x`.
   */
  lemma SourcedLastWins(doc: Dict<string, Value>, override: Option<Dict<string, string>>,
                        describe: string -> DescribeReply, listing: string -> Listing, k: string, i: nat, x: string)
    requires Resolve(doc, override, describe, listing).Ok?
    requires var s := Get(doc, "SourcedParameters");
      && s.Some? && s.value.Map? && i < |s.value.entries| && s.value.entries[i].0 == k
      && forall j :: i < j < |s.value.entries| ==> s.value.entries[j].0 != k
    requires var es := Get(doc, "SourcedParameters").value.entries;
      var before := Sourced(es[..i], Resolution(StaticParameters(doc).value, DependentStacks(doc, describe).value),
                            describe, listing);
      && before.Ok? && es[i].1.Str?
      && Find(es[i].1.s, before.value.stacks, describe, listing).Ok?
      && Find(es[i].1.s, before.value.stacks, describe, listing).value.0 == Some(x)
    requires override.None? || forall j :: 0 <= j < |override.value| ==> override.value[j].0 != k
    ensures Get(Resolve(doc, override, describe, listing).value, k) == Some(x)
  {
    var st0 := Resolution(StaticParameters(doc).value, DependentStacks(doc, describe).value);
    var es := Get(doc, "SourcedParameters").value.entries;
    var before := Sourced(es[..i], st0, describe, listing).value;
    var f := Find(es[i].1.s, before.stacks, describe, listing).value;
    var after := Resolution(Put(before.params, k, x), f.1);
    assert es[..i + 1][..i] == es[..i] && es[..i + 1][i] == es[i];
    assert Sourced(es[..i + 1], st0, describe, listing) == Ok(after);
    PutGet(before.params, k, x);
    SourcedSplit(es, i + 1, st0, describe, listing);
    var rest := es[i + 1..];
    assert forall j :: 0 <= j < |rest| ==> rest[j] == es[i + 1 + j];
    SourcedOther(rest, after, describe, listing, k);
    if override.Some? {
      OverrideKeeps(Sourced(es, st0, describe, listing).value.params, override.value, k);
    }
  }

  /** Entry `i` is the last one for key `k`. */
  predicate LastFor(ov: Dict<string, string>, i: int, k: string) {
    0 <= i < |ov| && ov[i].0 == k && forall j :: i < j < |ov| ==> ov[j].0 != k
  }

  /** The keys no `SourcedParameters` entry names. */
  predicate NotSourced(doc: Dict<string, Value>, k: string) {
    var s := Get(doc, "SourcedParameters");
    s.Some? && s.value.Map? ==> forall i :: 0 <= i < |s.value.entries| ==> s.value.entries[i].0 != k
  }

  /**
   * Precedence: an override gives a key its value; a key neither overridden
   * nor sourced keeps its static value; and each key appears once.
   */
  lemma ResolvePrecedence(doc: Dict<string, Value>, override: Option<Dict<string, string>>,
                          describe: string -> DescribeReply, listing: string -> Listing, k: string)
    requires Resolve(doc, override, describe, listing).Ok?
    ensures UniqueKeys(Resolve(doc, override, describe, listing).value)
    ensures override.Some? ==> forall i :: LastFor(override.value, i, k) ==>
      Get(Resolve(doc, override, describe, listing).value, k) == Some(override.value[i].1)
    ensures (override.None? || forall j :: 0 <= j < |override.value| ==> override.value[j].0 != k) && NotSourced(doc, k) ==>
      Get(Resolve(doc, override, describe, listing).value, k) == Get(StaticParameters(doc).value, k)
  {
    var base := StaticParameters(doc).value;
    var stacks := DependentStacks(doc, describe).value;
    var st := Resolution(base, stacks);
    var res := SourcedParameters(doc, st, describe, listing).value;
    var s := Get(doc, "SourcedParameters");
    var p := Get(doc, "Parameters").value;
    if p.Map? {
      CollectUnique(p.entries, EntryName, StaticText);
    }
    if s.Some? && s.value.Map? {
      SourcedUnique(s.value.entries, st, describe, listing);
      if NotSourced(doc, k) {
        SourcedOther(s.value.entries, st, describe, listing, k);
      }
    }
    if override.Some? {
      OverriddenUnique(res.params, override.value);
      forall i | LastFor(override.value, i, k)
        ensures Get(Overridden(res.params, override.value), k) == Some(override.value[i].1)
      {
        OverrideWins(res.params, override.value, i);
      }
      if forall j :: 0 <= j < |override.value| ==> override.value[j].0 != k {
        OverrideKeeps(res.params, override.value, k);
      }
    }
  }

  /** `DependsOnStacks` raises NotImplementedError, whatever the provider would answer. */
  lemma DependsOnStacksRefused(doc: Dict<string, Value>, override: Option<Dict<string, string>>,
                               describe: string -> DescribeReply, listing: string -> Listing)
    requires StaticParameters(doc).Ok? && HasKey(doc, "DependsOnStacks")
    ensures Resolve(doc, override, describe, listing) == Err(NotImplemented)
  {
  }

  /** `{'ParameterKey': k, 'ParameterValue': v, 'UsePreviousValue': False}`. */
  function ParameterRecord(k: string, v: string): Value {
    Map([("ParameterKey", Str(k)), ("ParameterValue", Str(v)), ("UsePreviousValue", Bool(false))])
  }

  /** `self.params`: the records of `param_dict`, in its key order. */
  function ParameterList(d: Dict<string, string>): (ps: seq<Value>)
    ensures |ps| == |d|
    ensures forall i :: 0 <= i < |d| ==> ps[i] == ParameterRecord(d[i].0, d[i].1)
  {
    seq(|d|, i requires 0 <= i < |d| => ParameterRecord(d[i].0, d[i].1))
  }

  /** Each key appears in exactly one record of `self.params`. */
  lemma ParameterListUnique(d: Dict<string, string>)
    requires UniqueKeys(d)
    ensures forall i, j :: 0 <= i < j < |d| ==>
      Get(ParameterList(d)[i].entries, "ParameterKey") != Get(ParameterList(d)[j].entries, "ParameterKey")
  {
    forall i, j | 0 <= i < j < |d|
      ensures Get(ParameterList(d)[i].entries, "ParameterKey") != Get(ParameterList(d)[j].entries, "ParameterKey")
    {
      assert Get(ParameterList(d)[i].entries, "ParameterKey") == Some(Str(d[i].0));
      assert Get(ParameterList(d)[j].entries, "ParameterKey") == Some(Str(d[j].0));
    }
  }

  // ------------------------------------------------------------ the loops of fetch_parameters

  /** The `DependentStacks` loop. */
  method LookUpDependents(es: seq<(string, Value)>, describe: string -> DescribeReply)
    returns (r: Result<Dict<string, Handle>, Fault>)
    ensures r == Dependents(es, describe)
  {
    var stackMap: Dict<string, Handle> := [];
    var i := 0;
    while i < |es|
      invariant 0 <= i <= |es|
      invariant Dependents(es[..i], describe) == Ok(stackMap)
    {
      assert es[..i + 1][..i] == es[..i];
      var step := Lookup(stackMap, es[i].0, es[i].1, describe);
      if step.Err? {
        DependentsStuck(es, i + 1, describe);
        return step;
      }
      stackMap := step.value;
      i := i + 1;
    }
    assert es[..|es|] == es;
    return Ok(stackMap);
  }

  /** The `SourcedParameters` loop. */
  method ResolveSourced(es: seq<(string, Value)>, st: Resolution, describe: string -> DescribeReply,
                        listing: string -> Listing)
    returns (r: Result<Resolution, Fault>)
    ensures r == Sourced(es, st, describe, listing)
  {
    var cur := st;
    var i := 0;
    while i < |es|
      invariant 0 <= i <= |es|
      invariant Sourced(es[..i], st, describe, listing) == Ok(cur)
    {
      assert es[..i + 1][..i] == es[..i];
      var step := Source(cur, es[i].0, es[i].1, describe, listing);
      if step.Err? {
        SourcedStuck(es, i + 1, st, describe, listing);
        return step;
      }
      cur := step.value;
      i := i + 1;
    }
    assert es[..|es|] == es;
    return Ok(cur);
  }

  /** The override loop. */
  method ApplyOverride(d: Dict<string, string>, ov: Dict<string, string>) returns (r: Dict<string, string>)
    ensures r == Overridden(d, ov)
  {
    r := d;
    var i := 0;
    while i < |ov|
      invariant 0 <= i <= |ov|
      invariant r == Overridden(d, ov[..i])
    {
      assert ov[..i + 1][..i] == ov[..i];
      r := Put(r, ov[i].0, ov[i].1);
      i := i + 1;
    }
    assert ov[..|ov|] == ov;
  }

  /** The `Parameters` loop of `fetch_parameters`. */
  method StaticPhase(doc: Dict<string, Value>) returns (r: Result<Dict<string, string>, Fault>)
    ensures r == StaticParameters(doc)
  {
    var p := Get(doc, "Parameters");
    if p.None? {
      return Err(KeyError("Parameters"));
    }
    if p.value.Null? {
      return Ok([]);
    }
    if !p.value.Map? {
      return Err(AttributeError("items"));
    }
    var d := Gather(p.value.entries, EntryName, StaticText);
    return Ok(d);
  }

  /** The `DependentStacks` part of `fetch_parameters`. */
  method DependentPhase(doc: Dict<string, Value>, describe: string -> DescribeReply)
    returns (r: Result<Dict<string, Handle>, Fault>)
    ensures r == DependentStacks(doc, describe)
  {
    var ds := Get(doc, "DependentStacks");
    if ds.None? || ds.value.Null? {
      return Ok([]);
    }
    if !ds.value.Map? {
      return Err(AttributeError("items"));
    }
    r := LookUpDependents(ds.value.entries, describe);
  }

  /** The `SourcedParameters` part of `fetch_parameters`. */
  method SourcedPhase(doc: Dict<string, Value>, st: Resolution, describe: string -> DescribeReply,
                      listing: string -> Listing)
    returns (r: Result<Resolution, Fault>)
    ensures r == SourcedParameters(doc, st, describe, listing)
  {
    var sp := Get(doc, "SourcedParameters");
    if sp.None? || sp.value.Null? {
      return Ok(st);
    }
    if !sp.value.Map? {
      return Err(AttributeError("items"));
    }
    r := ResolveSourced(sp.value.entries, st, describe, listing);
  }

  // ------------------------------------------------------------ the payload

  /** `int(re.sub("\D", "", t))`: only a string can be searched, and `int("")` raises. */
  function TimeoutMinutes(t: Value): Result<Value, Fault> {
    if !t.Str? then Err(TypeError("expected string or bytes-like object"))
    else if KeepDigits(t.s) == [] then Err(ValueError("invalid literal for int() with base 10: ''"))
    else Ok(Int(DigitsValue(KeepDigits(t.s))))
  }

  /** A `TimeOut` such as "30m" gives the number its digits spell. */
  lemma TimeoutOfDigits(n: nat, unit: string)
    requires forall c :: c in unit ==> !IsDigit(c)
    ensures TimeoutMinutes(Str(NatToString(n) + unit)) == Ok(Int(n))
  {
    KeepDigitsOfDigits(NatToString(n), unit);
    DigitsValueOfNatToString(n);
  }

  /** The payload's `TimeoutInMinutes`: absent without `TimeOut`. */
  function Timeout(doc: Dict<string, Value>): Result<Option<Value>, Fault> {
    match Get(doc, "TimeOut")
    case None => Ok(None)
    case Some(t) =>
      var m :- TimeoutMinutes(t);
      Ok(Some(m))
  }

  /** `json.dumps({'Statement': policy})`. */
  function PolicyBody(policy: Value): Value {
    Str(Dumps(Map([("Statement", policy)])))
  }

  /** The policy body reads back as the manifest's `StackPolicy` under `Statement`. */
  lemma PolicyBodyReadBack(policy: Value)
    ensures Parse(PolicyBody(policy).s) == Some(Map([("Statement", policy)]))
  {
    DumpsRoundTrip(Map([("Statement", policy)]));
  }

  /** The body of the template read at load time, if any. */
  function BodyOf(template: Option<CFTemplate>): Option<string> {
    if template.Some? then Some(template.value.templateBody) else None
  }

  /**
   * What the payload says about the template: the body when `LocalTemplate`
   * is in the document (AttributeError when no template was read), else the
   * `S3Template` URL, else None for the False returned.
   */
  function TemplateField(doc: Dict<string, Value>, body: Option<string>): Result<Option<(string, Value)>, Fault> {
    if HasKey(doc, "LocalTemplate") then
      if body.None? then Err(AttributeError("template_body")) else Ok(Some(("TemplateBody", Str(body.value))))
    else if HasKey(doc, "S3Template") then Ok(Some(("TemplateURL", Get(doc, "S3Template").value)))
    else Ok(None)
  }

  function TagEntry(k: string, v: Value): Value {
    Map([("Key", Str(k)), ("Value", v)])
  }

  /** The `Tags` list: one `{Key, Value}` per entry of the mapping, in its order. */
  function TagList(es: seq<(string, Value)>): (ts: seq<Value>)
    ensures |ts| == |es|
    ensures forall i :: 0 <= i < |es| ==> ts[i] == TagEntry(es[i].0, es[i].1)
  {
    seq(|es|, i requires 0 <= i < |es| => TagEntry(es[i].0, es[i].1))
  }

  /** The tags of the document; a `Tags` that is not a mapping has no `items`. */
  function Tags(doc: Dict<string, Value>): Result<seq<Value>, Fault> {
    match Get(doc, "Tags")
    case None => Ok([])
    case Some(t) => if t.Map? then Ok(TagList(t.entries)) else Err(AttributeError("items"))
  }

  /** The keys `build_cft_payload` assigns, in its order, with the template key chosen. */
  function PayloadKeys(template: string): seq<string> {
    ["StackName", "Parameters", "Capabilities", "Tags", "EnableTerminationProtection", "TimeoutInMinutes",
     "OnFailure", "StackPolicyBody", template]
  }

  /** The values `build_cft_payload` assigns to those keys; None where it assigns nothing. */
  function PayloadValues(name: Value, params: seq<Value>, doc: Dict<string, Value>, timeout: Option<Value>,
                         policy: Value, source: (string, Value))
    : seq<Option<Value>>
  {
    [Some(name), Some(List(params)), Some(Capabilities), Some(List([])), Get(doc, "TerminationProtection"),
     timeout, Get(doc, "OnFailure"), Some(PolicyBody(policy)), Some(source.1)]
  }

  /** The assignments `build_cft_payload` makes, in its order; `Tags` starts as an empty list. */
  function PayloadEntries(name: Value, params: seq<Value>, doc: Dict<string, Value>, timeout: Option<Value>,
                          policy: Value, source: (string, Value))
    : seq<(string, Option<Value>)>
  {
    Zip(PayloadKeys(source.0), PayloadValues(name, params, doc, timeout, policy, source))
  }

  /**
   * `build_cft_payload`, None for the False it returns without a template.
   * `StackPolicy` is read before anything else, so a manifest without one
   * fails with KeyError although its later use is guarded; the tags are
   * appended to the `Tags` list already in the payload.
   */
  function CftPayload(doc: Dict<string, Value>, params: Option<seq<Value>>, body: Option<string>)
    : Result<Option<Dict<string, Value>>, Fault>
  {
    if !HasKey(doc, "StackPolicy") then Err(KeyError("StackPolicy"))
    else if !HasKey(doc, "StackName") then Err(KeyError("StackName"))
    else if params.None? then Err(AttributeError("params"))
    else
      var timeout :- Timeout(doc);
      var source :- TemplateField(doc, body);
      if source.None? then Ok(None)
      else
        var tags :- Tags(doc);
        var p := PutAll([], PayloadEntries(Get(doc, "StackName").value, params.value, doc, timeout,
                                           Get(doc, "StackPolicy").value, source.value));
        Ok(Some(Put(p, "Tags", List(tags))))
  }

  /** Assigning the payload keys to an empty dict finds each key's own value, and no other template key. */
  lemma PayloadLookup(template: string, vs: seq<Option<Value>>)
    requires template == "TemplateBody" || template == "TemplateURL"
    requires |vs| == 9
    ensures var p := PutAll([], Zip(PayloadKeys(template), vs));
      && UniqueKeys(p)
      && Get(p, template) == vs[8]
      && Get(p, OtherTemplateKey(template)) == None
    ensures var p := PutAll([], Zip(PayloadKeys(template), vs));
      && Get(p, "StackName") == vs[0]
      && Get(p, "Parameters") == vs[1]
      && Get(p, "Capabilities") == vs[2]
      && Get(p, "EnableTerminationProtection") == vs[4]
    ensures var p := PutAll([], Zip(PayloadKeys(template), vs));
      && Get(p, "TimeoutInMinutes") == vs[5]
      && Get(p, "OnFailure") == vs[6]
      && Get(p, "StackPolicyBody") == vs[7]
  {
    var ks := PayloadKeys(template);
    var p := PutAll([], Zip(ks, vs));
    PayloadKeysUnique(template);
    ZipLookup(ks, vs, OtherTemplateKey(template));
    assert Get(p, ks[0]) == vs[0] && Get(p, ks[1]) == vs[1] && Get(p, ks[2]) == vs[2] && Get(p, ks[4]) == vs[4];
    assert Get(p, ks[5]) == vs[5] && Get(p, ks[6]) == vs[6] && Get(p, ks[7]) == vs[7] && Get(p, ks[8]) == vs[8];
  }

  /**
   * The payload before its tags are appended: each assignment's key holds
   * its value, and the template field left out is absent.
   */
  lemma PayloadEntriesLookup(name: Value, params: seq<Value>, doc: Dict<string, Value>, timeout: Option<Value>,
                             policy: Value, source: (string, Value))
    requires source.0 == "TemplateBody" || source.0 == "TemplateURL"
    ensures var p := PutAll([], PayloadEntries(name, params, doc, timeout, policy, source));
      && UniqueKeys(p)
      && Get(p, "StackName") == Some(name)
      && Get(p, "Parameters") == Some(List(params))
      && Get(p, "Capabilities") == Some(Capabilities)
      && Get(p, "EnableTerminationProtection") == Get(doc, "TerminationProtection")
      && Get(p, "TimeoutInMinutes") == timeout
      && Get(p, "OnFailure") == Get(doc, "OnFailure")
      && Get(p, "StackPolicyBody") == Some(PolicyBody(policy))
      && Get(p, source.0) == Some(source.1)
      && Get(p, OtherTemplateKey(source.0)) == None
  {
    PayloadLookup(source.0, PayloadValues(name, params, doc, timeout, policy, source));
  }

  /** The template key `build_cft_payload` does not assign. */
  function OtherTemplateKey(template: string): string {
    if template == "TemplateBody" then "TemplateURL" else "TemplateBody"
  }

  lemma PayloadKeysUnique(template: string)
    requires template == "TemplateBody" || template == "TemplateURL"
    ensures forall a, b :: 0 <= a < b < |PayloadKeys(template)| ==> PayloadKeys(template)[a] != PayloadKeys(template)[b]
    ensures forall i :: 0 <= i < |PayloadKeys(template)| ==> PayloadKeys(template)[i] != OtherTemplateKey(template)
  {
    var ks := PayloadKeys(template);
    // Keys of equal length differ in their first letter.
    assert |ks[0]| == 9 && |ks[1]| == 10 && |ks[2]| == 12 && |ks[3]| == 4 && |ks[4]| == 27;
    assert |ks[5]| == 16 && |ks[6]| == 9 && |ks[7]| == 15 && (|ks[8]| == 12 || |ks[8]| == 11);
    assert ks[0][0] == 'S' && ks[6][0] == 'O' && ks[2][0] == 'C' && ks[8][0] == 'T';
    assert |OtherTemplateKey(template)| + |template| == 23 && OtherTemplateKey(template)[0] == 'T';
  }

  /** A payload that was built is the nine assignments followed by the tags. */
  lemma CftPayloadParts(doc: Dict<string, Value>, params: Option<seq<Value>>, body: Option<string>)
    requires CftPayload(doc, params, body).Ok? && CftPayload(doc, params, body).value.Some?
    ensures HasKey(doc, "StackPolicy") && HasKey(doc, "StackName") && params.Some?
    ensures Timeout(doc).Ok? && Tags(doc).Ok? && TemplateField(doc, body).Ok? && TemplateField(doc, body).value.Some?
    ensures var f := TemplateField(doc, body).value.value;
      && (f.0 == "TemplateBody" || f.0 == "TemplateURL")
      && CftPayload(doc, params, body).value.value ==
         Put(PutAll([], PayloadEntries(Get(doc, "StackName").value, params.value, doc, Timeout(doc).value,
                                       Get(doc, "StackPolicy").value, f)), "Tags", List(Tags(doc).value))
  {
  }

  /** The keys every payload holds, and the optional ones exactly when the document has them. */
  lemma PayloadFields(doc: Dict<string, Value>, params: Option<seq<Value>>, body: Option<string>)
    requires CftPayload(doc, params, body).Ok? && CftPayload(doc, params, body).value.Some?
    ensures var p := CftPayload(doc, params, body).value.value;
      && UniqueKeys(p)
      && Get(p, "StackName") == Get(doc, "StackName")
      && Get(p, "Parameters") == Some(List(params.value))
      && Get(p, "Capabilities") == Some(Capabilities)
      && Get(p, "Tags") == Some(List(Tags(doc).value))
      && Get(p, "EnableTerminationProtection") == Get(doc, "TerminationProtection")
      && Get(p, "TimeoutInMinutes") == Timeout(doc).value
      && Get(p, "OnFailure") == Get(doc, "OnFailure")
      && Get(p, "StackPolicyBody") == Some(PolicyBody(Get(doc, "StackPolicy").value))
  {
    CftPayloadParts(doc, params, body);
    var source := TemplateField(doc, body).value.value;
    var p := PutAll([], PayloadEntries(Get(doc, "StackName").value, params.value, doc, Timeout(doc).value,
                                       Get(doc, "StackPolicy").value, source));
    var name, policy := Get(doc, "StackName").value, Get(doc, "StackPolicy").value;
    PayloadEntriesLookup(name, params.value, doc, Timeout(doc).value, policy, source);
    var tags := List(Tags(doc).value);
    PutUnique(p, "Tags", tags);
    PutGet(p, "Tags", tags);
    PutOther(p, "Tags", tags, "StackName");
    PutOther(p, "Tags", tags, "Parameters");
    PutOther(p, "Tags", tags, "Capabilities");
    PutOther(p, "Tags", tags, "EnableTerminationProtection");
    PutOther(p, "Tags", tags, "TimeoutInMinutes");
    PutOther(p, "Tags", tags, "OnFailure");
    PutOther(p, "Tags", tags, "StackPolicyBody");
  }

  /** The payload carries the template field chosen, and not the other one. */
  lemma PayloadTemplate(doc: Dict<string, Value>, params: Option<seq<Value>>, body: Option<string>)
    requires CftPayload(doc, params, body).Ok? && CftPayload(doc, params, body).value.Some?
    ensures var p := CftPayload(doc, params, body).value.value;
      var f := TemplateField(doc, body).value.value;
      && Get(p, f.0) == Some(f.1)
      && !HasKey(p, OtherTemplateKey(f.0))
  {
    CftPayloadParts(doc, params, body);
    var f := TemplateField(doc, body).value.value;
    var p := PutAll([], PayloadEntries(Get(doc, "StackName").value, params.value, doc, Timeout(doc).value,
                                       Get(doc, "StackPolicy").value, f));
    var other := OtherTemplateKey(f.0);
    PayloadEntriesLookup(Get(doc, "StackName").value, params.value, doc, Timeout(doc).value,
                         Get(doc, "StackPolicy").value, f);
    PutOther(p, "Tags", List(Tags(doc).value), f.0);
    PutOther(p, "Tags", List(Tags(doc).value), other);
  }

  /**
   * The template choice: False exactly without either key; the local body
   * when `LocalTemplate` is there, even beside `S3Template`; the URL otherwise.
   */
  lemma PayloadTemplateChoice(doc: Dict<string, Value>, params: Option<seq<Value>>, body: Option<string>)
    requires HasKey(doc, "StackPolicy") && HasKey(doc, "StackName") && params.Some? && Timeout(doc).Ok?
    ensures CftPayload(doc, params, body) == Ok(None) <==> !HasKey(doc, "LocalTemplate") && !HasKey(doc, "S3Template")
    ensures HasKey(doc, "LocalTemplate") && body.None? ==> CftPayload(doc, params, body) == Err(AttributeError("template_body"))
    ensures var r := CftPayload(doc, params, body);
      r.Ok? && r.value.Some? ==>
        && (HasKey(doc, "LocalTemplate") ==>
              Get(r.value.value, "TemplateBody") == Some(Str(body.value)) && !HasKey(r.value.value, "TemplateURL"))
        && (!HasKey(doc, "LocalTemplate") ==>
              Get(r.value.value, "TemplateURL") == Get(doc, "S3Template") && !HasKey(r.value.value, "TemplateBody"))
  {
    var r := CftPayload(doc, params, body);
    if r.Ok? && r.value.Some? {
      PayloadTemplate(doc, params, body);
    }
  }

  /** `StackPolicy` is read unconditionally: without it nothing else is looked at. */
  lemma StackPolicyRequired(doc: Dict<string, Value>, params: Option<seq<Value>>, body: Option<string>)
    requires !HasKey(doc, "StackPolicy")
    ensures CftPayload(doc, params, body) == Err(KeyError("StackPolicy"))
  {
  }

  // ------------------------------------------------------------ create_stack

  /** `create_stack` catches CFStackDoesNotExistError and ClientError and returns None; the rest escapes. */
  function Caught(e: Fault): Result<Option<string>, Fault> {
    if e.StackDoesNotExist? || e.ClientError? then Ok(None) else Err(e)
  }

  /**
   * `create_stack` once the parameters are resolved: the name of the new
   * stack, or None. A False payload cannot be spread into keyword
   * arguments; a StackName that is not a string is refused by botocore.
   */
  function Launch(payload: Result<Option<Dict<string, Value>>, Fault>, createApi: Dict<string, Value> -> ApiReply)
    : Result<Option<string>, Fault>
  {
    match payload
    case Err(e) => Caught(e)
    case Ok(None) => Err(TypeError("argument after ** must be a mapping, not bool"))
    case Ok(Some(p)) =>
      var name := Get(p, "StackName");
      if name.None? || !name.value.Str? then Err(ParamValidation("StackName"))
      else match createApi(p)
        case Replied(Some(_)) => Ok(Some(name.value.s))
        case _ => Ok(None)
  }

  /** The whole of `create_stack`. */
  function CreateStackOutcome(doc: Dict<string, Value>, override: Option<Dict<string, string>>, body: Option<string>,
                              describe: string -> DescribeReply, listing: string -> Listing,
                              createApi: Dict<string, Value> -> ApiReply)
    : Result<Option<string>, Fault>
  {
    match Resolve(doc, override, describe, listing)
    case Err(e) => Caught(e)
    case Ok(d) => Launch(CftPayload(doc, Some(ParameterList(d)), body), createApi)
  }

  /**
   * A dependent stack that is missing, or a ClientError from the provider,
   * makes `create_stack` return None without sending anything.
   */
  lemma CreateStackCatches(doc: Dict<string, Value>, override: Option<Dict<string, string>>, body: Option<string>,
                           describe: string -> DescribeReply, listing: string -> Listing,
                           createApi: Dict<string, Value> -> ApiReply)
    requires Resolve(doc, override, describe, listing).Err?
    requires Resolve(doc, override, describe, listing).error.StackDoesNotExist? ||
             Resolve(doc, override, describe, listing).error.ClientError?
    ensures CreateStackOutcome(doc, override, body, describe, listing, createApi) == Ok(None)
  {
  }

  // ------------------------------------------------------------ the class

  /** The loop of `fetch_parameters` that turns the resolved dict into `self.params`. */
  method BuildParameterList(paramDict: Dict<string, string>) returns (list: seq<Value>)
    ensures list == ParameterList(paramDict)
  {
    list := [];
    var i := 0;
    while i < |paramDict|
      invariant 0 <= i <= |paramDict|
      invariant list == ParameterList(paramDict[..i])
    {
      list := list + [ParameterRecord(paramDict[i].0, paramDict[i].1)];
      i := i + 1;
    }
    assert paramDict[..|paramDict|] == paramDict;
  }

  class CFManifest {
    var document: Dict<string, Value>
    const stackName: Value
    const region: string
    const template: Option<CFTemplate>
    var params: Option<seq<Value>>

    constructor (document: Dict<string, Value>, stackName: Value, region: string, template: Option<CFTemplate>)
      ensures this.document == document && this.stackName == stackName && this.region == region
      ensures this.template == template && params == None
    {
      this.document := document;
      this.stackName := stackName;
      this.region := region;
      this.template := template;
      params := None;
    }

    /**
     * `__init__` once the YAML is parsed: the document must be a mapping
     * with a StackName; a region given overrides (and is written into) the
     * document's; a `LocalTemplate` is read from `files`.
     */
    static method Load(doc: Value, regionOverride: Option<string>, files: map<string, string>)
      returns (r: Result<CFManifest, Fault>)
      ensures !doc.Map? ==> r == Err(TypeError("object is not subscriptable"))
      ensures doc.Map? && !HasKey(doc.entries, "StackName") ==> r == Err(KeyError("StackName"))
      ensures doc.Map? && HasKey(doc.entries, "StackName") && regionOverride.None? && !HasKey(doc.entries, "Region") ==>
        r == Err(KeyError("Region"))
      ensures r.Ok? ==>
        && fresh(r.value)
        && r.value.stackName == Get(doc.entries, "StackName").value
        && (regionOverride.Some? ==>
              r.value.region == regionOverride.value &&
              r.value.document == Put(doc.entries, "Region", Str(regionOverride.value)))
        && (regionOverride.None? ==>
              Get(doc.entries, "Region") == Some(Str(r.value.region)) && r.value.document == doc.entries)
        && r.value.params == None
        && (r.value.template.Some? <==> HasKey(r.value.document, "LocalTemplate"))
        && (r.value.template.Some? ==>
              var f := r.value.template.value.filename;
              && f.Some? && f.value in files
              && Get(r.value.document, "LocalTemplate") == Some(Str(f.value))
              && r.value.template.value.templateBody == files[f.value])
      ensures doc.Map? && HasKey(doc.entries, "StackName") && regionOverride.Some? && !HasKey(doc.entries, "LocalTemplate") ==>
        r.Ok?
    {
      if !doc.Map? {
        return Err(TypeError("object is not subscriptable"));
      }
      var document := doc.entries;
      var name := Get(document, "StackName");
      if name.None? {
        return Err(KeyError("StackName"));
      }
      var region: string;
      if regionOverride.None? {
        var given := Get(document, "Region");
        if given.None? {
          return Err(KeyError("Region"));
        }
        if !given.value.Str? {
          return Err(TypeError("region name must be a string"));
        }
        region := given.value.s;
      } else {
        region := regionOverride.value;
        PutOther(document, "Region", Str(region), "LocalTemplate");
        document := Put(document, "Region", Str(region));
      }
      var template: Option<CFTemplate> := None;
      var local := Get(document, "LocalTemplate");
      if local.Some? {
        if !local.value.Str? {
          return Err(TypeError("expected str, bytes or os.PathLike object"));
        }
        var read := CFTemplate.Read(local.value.s, region, files);
        if read.Err? {
          return Err(read.error);
        }
        template := Some(read.value);
      }
      var m := new CFManifest(document, name.value, region, template);
      return Ok(m);
    }

    /** `override_option`: `document[key] = value`. */
    method OverrideOption(key: string, value: Value)
      modifies this`document
      ensures document == Put(old(document), key, value)
    {
      document := Put(document, key, value);
    }

    /**
     * `fetch_parameters`: `self.params` is rebuilt from scratch out of the
     * document, the overrides and the provider, and left alone when
     * resolution fails.
     */
    method FetchParameters(override: Option<Dict<string, string>>, describe: string -> DescribeReply,
                           listing: string -> Listing)
      returns (r: Result<(), Fault>)
      modifies this`params
      ensures var res := Resolve(document, override, describe, listing);
        && (res.Err? ==> r == Err(res.error) && params == old(params))
        && (res.Ok? ==> r == Ok(()) && params == Some(ParameterList(res.value)))
    {
      var base := StaticPhase(document);
      if base.Err? {
        return Err(base.error);
      }
      if HasKey(document, "DependsOnStacks") {
        return Err(NotImplemented);
      }
      var stackMap := DependentPhase(document, describe);
      if stackMap.Err? {
        return Err(stackMap.error);
      }
      var res := SourcedPhase(document, Resolution(base.value, stackMap.value), describe, listing);
      if res.Err? {
        return Err(res.error);
      }
      var paramDict := res.value.params;
      if override.Some? {
        paramDict := ApplyOverride(paramDict, override.value);
      }
      var list := BuildParameterList(paramDict);
      params := Some(list);
      return Ok(());
    }

    /** `build_cft_payload`, key by key, with its loop over the tags. */
    method BuildCftPayload() returns (r: Result<Option<Dict<string, Value>>, Fault>)
      ensures r == CftPayload(document, params, BodyOf(template))
    {
      var policy := Get(document, "StackPolicy");
      if policy.None? {
        return Err(KeyError("StackPolicy"));
      }
      var name := Get(document, "StackName");
      if name.None? {
        return Err(KeyError("StackName"));
      }
      if params.None? {
        return Err(AttributeError("params"));
      }
      var payload: Dict<string, Value> := [];
      payload := Put(payload, "StackName", name.value);
      payload := Put(payload, "Parameters", List(params.value));
      payload := Put(payload, "Capabilities", Capabilities);
      payload := Put(payload, "Tags", List([]));
      payload := PutIf(payload, "EnableTerminationProtection", Get(document, "TerminationProtection"));
      var timeout := Timeout(document);
      if timeout.Err? {
        return Err(timeout.error);
      }
      payload := PutIf(payload, "TimeoutInMinutes", timeout.value);
      payload := PutIf(payload, "OnFailure", Get(document, "OnFailure"));
      payload := Put(payload, "StackPolicyBody", PolicyBody(policy.value));
      var source := TemplateField(document, BodyOf(template));
      if source.Err? {
        return Err(source.error);
      }
      if source.value.None? {
        return Ok(None);
      }
      payload := Put(payload, source.value.value.0, source.value.value.1);
      PutAllNine([], PayloadEntries(name.value, params.value, document, timeout.value, policy.value, source.value.value));
      var tags := AppendTags(Get(document, "Tags"));
      if tags.Err? {
        return Err(tags.error);
      }
      payload := Put(payload, "Tags", List(tags.value));
      return Ok(Some(payload));
    }

    /** `validate`: False at once when both template keys are present, else the payload after resolving. */
    method Validate(override: Option<Dict<string, string>>, describe: string -> DescribeReply, listing: string -> Listing)
      returns (r: Result<Option<Dict<string, Value>>, Fault>)
      modifies this`params
      ensures HasKey(document, "LocalTemplate") && HasKey(document, "S3Template") ==> r == Ok(None) && params == old(params)
      ensures !(HasKey(document, "LocalTemplate") && HasKey(document, "S3Template")) ==>
        var res := Resolve(document, override, describe, listing);
        && (res.Err? ==> r == Err(res.error) && params == old(params))
        && (res.Ok? ==> params == Some(ParameterList(res.value)) && r == CftPayload(document, params, BodyOf(template)))
    {
      if HasKey(document, "LocalTemplate") && HasKey(document, "S3Template") {
        return Ok(None);
      }
      var fetched := FetchParameters(override, describe, listing);
      if fetched.Err? {
        return Err(fetched.error);
      }
      r := BuildCftPayload();
    }

    /** `create_stack`: resolve, build, send; a new CFStack for the name when the provider gives a StackId. */
    method CreateStack(override: Option<Dict<string, string>>, describe: string -> DescribeReply,
                       listing: string -> Listing, createApi: Dict<string, Value> -> ApiReply)
      returns (r: Result<Option<CFStack>, Fault>)
      modifies this`params
      ensures var res := Resolve(document, override, describe, listing);
        && (res.Err? ==> params == old(params))
        && (res.Ok? ==> params == Some(ParameterList(res.value)))
      ensures var outcome := CreateStackOutcome(document, override, BodyOf(template), describe, listing, createApi);
        && (outcome.Err? ==> r == Err(outcome.error))
        && (outcome == Ok(None) ==> r == Ok(None))
        && (outcome.Ok? && outcome.value.Some? ==>
              && r.Ok? && r.value.Some? && fresh(r.value.value)
              && r.value.value.stackName == outcome.value.value && r.value.value.region == region
              && r.value.value.View() == Unfetched)
    {
      var fetched := FetchParameters(override, describe, listing);
      if fetched.Err? {
        var c := Caught(fetched.error);
        if c.Err? {
          return Err(c.error);
        }
        return Ok(None);
      }
      var payload := BuildCftPayload();
      if payload.Err? {
        var c := Caught(payload.error);
        if c.Err? {
          return Err(c.error);
        }
        return Ok(None);
      }
      if payload.value.None? {
        return Err(TypeError("argument after ** must be a mapping, not bool"));
      }
      var p := payload.value.value;
      var name := Get(p, "StackName");
      if name.None? || !name.value.Str? {
        return Err(ParamValidation("StackName"));
      }
      var reply := createApi(p);
      if reply.Replied? && reply.stackId.Some? {
        var s := new CFStack(name.value.s, region);
        return Ok(Some(s));
      }
      return Ok(None);
    }
  }

  /** The tags loop of `build_cft_payload`, given `document.get('Tags')`. */
  method AppendTags(t: Option<Value>) returns (r: Result<seq<Value>, Fault>)
    ensures t.None? ==> r == Ok([])
    ensures t.Some? && !t.value.Map? ==> r == Err(AttributeError("items"))
    ensures t.Some? && t.value.Map? ==> r == Ok(TagList(t.value.entries))
  {
    if t.None? {
      return Ok([]);
    }
    if !t.value.Map? {
      return Err(AttributeError("items"));
    }
    var es := t.value.entries;
    var tags: seq<Value> := [];
    var i := 0;
    while i < |es|
      invariant 0 <= i <= |es|
      invariant tags == TagList(es[..i])
    {
      tags := tags + [TagEntry(es[i].0, es[i].1)];
      i := i + 1;
    }
    assert es[..|es|] == es;
    return Ok(tags);
  }
}
