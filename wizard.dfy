/**
 * The wizard's state and progress bookkeeping (ui/wizard.py): StateManager
 * keeps a nested dict addressed by dotted paths, validates three parts of
 * it and persists a snapshot; ProgressManager counts steps. The Tk widgets,
 * the worker threads and the file I/O are not modelled: the file a state is
 * saved to is the field `lastSaved`, the file it is loaded from a parameter.
 */
module Wizard {
  import opened Wrappers
  import opened PyStr
  import opened JsonValue

  /** A Python dict with string keys. */
  type Dict = map<string, Value>

  // ---------------------------------------------------------------------------
  // Dotted paths
  // ---------------------------------------------------------------------------

  /** No '.' in a key segment. */
  predicate NoDot(s: string) {
    forall i :: 0 <= i < |s| ==> s[i] != '.'
  }

  /** A key without a dot is a path of one segment. */
  lemma SplitWithoutDot(s: string)
    requires NoDot(s)
    ensures SplitOn(s, ".") == [s]
  {
    forall j | 0 <= j <= |s|
      ensures !OccursAt(s, ".", j)
    {
      if j + 1 <= |s| {
        assert s[j..j + 1][0] == s[j];
      }
    }
  }

  /** `"a.b".split('.')` is `[a, b]` when neither segment holds a dot. */
  lemma SplitAtDot(a: string, b: string)
    requires NoDot(a) && NoDot(b)
    ensures SplitOn(a + "." + b, ".") == [a, b]
  {
    var s := a + "." + b;
    assert s[|a|..|a| + 1] == ".";
    assert OccursAt(s, ".", |a|);
    forall j | 0 <= j < |a|
      ensures !OccursAt(s, ".", j)
    {
      assert s[j..j + 1][0] == s[j] == a[j];
    }
    var r := Find(s, ".");
    assert r == |a|;
    assert s[..r] == a;
    assert s[r + 1..] == b;
    SplitWithoutDot(b);
  }

  // ---------------------------------------------------------------------------
  // get
  // ---------------------------------------------------------------------------

  /**
   * The loop of `get` from value v over the remaining keys: `.get` on a
   * non-dict raises AttributeError, a missing key yields the default, and a
   * None (stored or defaulted) ends the walk with the default.
   */
  function GetFrom(v: Value, keys: seq<string>, default: Value): Result<Value>
    decreases |keys|
  {
    if keys == [] then Ok(v)
    else if !v.Obj? then Err("AttributeError")
    else
      var next := if keys[0] in v.fields then v.fields[keys[0]] else default;
      if next == Null then Ok(default) else GetFrom(next, keys[1..], default)
  }

  /** What a path holds in a dict, independently of any default. */
  datatype Resolution =
    | Found(held: Value)           // every key present, the last holding a non-None value
    | Absent(rest: seq<string>)    // a key is missing; `rest` are the keys after it
    | NoneStored                   // a key holds None
    | Blocked                      // a key holds a non-dict while keys remain

  function ResolveIn(d: Dict, keys: seq<string>): Resolution
    requires keys != []
    decreases |keys|
  {
    var k := keys[0];
    if k !in d then Absent(keys[1..])
    else if d[k] == Null then NoneStored
    else if |keys| == 1 then Found(d[k])
    else if d[k].Obj? then ResolveIn(d[k].fields, keys[1..])
    else Blocked
  }

  /**
   * `get` in terms of what the path holds: a found value is returned
   * whatever the default, a stored None gives the default, a non-dict in
   * the way raises AttributeError, and a missing key gives None when the
   * default is None and otherwise continues the walk inside the default.
   */
  lemma {:induction false} GetResolves(d: Dict, keys: seq<string>, default: Value)
    requires keys != []
    ensures ResolveIn(d, keys).Found? ==> GetFrom(Obj(d), keys, default) == Ok(ResolveIn(d, keys).held)
    ensures ResolveIn(d, keys).NoneStored? ==> GetFrom(Obj(d), keys, default) == Ok(default)
    ensures ResolveIn(d, keys).Blocked? ==> GetFrom(Obj(d), keys, default) == Err("AttributeError")
    ensures ResolveIn(d, keys).Absent? ==>
      (GetFrom(Obj(d), keys, default) ==
       if default == Null then Ok(Null) else GetFrom(default, ResolveIn(d, keys).rest, default))
    decreases |keys|
  {
    var k := keys[0];
    if k in d && d[k] != Null && |keys| > 1 {
      if d[k].Obj? {
        GetResolves(d[k].fields, keys[1..], default);
      } else {
        assert keys[1..] != [];
      }
    }
  }

  // ---------------------------------------------------------------------------
  // set
  // ---------------------------------------------------------------------------

  /** `target.setdefault(k, {})`. */
  function ChildOf(d: Dict, k: string): Value {
    if k in d then d[k] else Obj(map[])
  }

  /**
   * `set` on the dict d: walk the keys but the last with `setdefault`,
   * then assign the last. A non-dict met while walking raises
   * AttributeError; a non-dict final target raises TypeError.
   */
  function SetIn(d: Dict, keys: seq<string>, x: Value): Result<Dict>
    requires keys != []
    decreases |keys|
  {
    var k := keys[0];
    if |keys| == 1 then Ok(d[k := x])
    else
      var child := ChildOf(d, k);
      if !child.Obj? then Err(if |keys| == 2 then "TypeError" else "AttributeError")
      else
        var below := SetIn(child.fields, keys[1..], x);
        if below.Ok? then Ok(d[k := Obj(below.value)]) else Err(below.error)
  }

  /** One step of `SetIn` at segment j. */
  lemma SetInStep(d: Dict, keys: seq<string>, j: nat, x: Value)
    requires j + 1 < |keys|
    ensures SetIn(d, keys[j..], x) ==
      var child := ChildOf(d, keys[j]);
      if !child.Obj? then Err(if |keys| - j == 2 then "TypeError" else "AttributeError")
      else
        var below := SetIn(child.fields, keys[j + 1..], x);
        if below.Ok? then Ok(d[keys[j] := Obj(below.value)]) else Err(below.error)
  {
    assert keys[j..][0] == keys[j];
    assert keys[j..][1..] == keys[j + 1..];
  }

  /** A child that is not a dict stops the walk with the exception `set` raises there. */
  lemma SetInStuck(d: Dict, keys: seq<string>, j: nat, x: Value)
    requires j + 1 < |keys| && !ChildOf(d, keys[j]).Obj?
    ensures SetIn(d, keys[j..], x) == Err(if |keys| - j == 2 then "TypeError" else "AttributeError")
  {
    SetInStep(d, keys, j, x);
  }

  /** A failure below a dict child is the failure of the whole step. */
  lemma SetInDescend(d: Dict, keys: seq<string>, j: nat, x: Value)
    requires j + 1 < |keys| && ChildOf(d, keys[j]).Obj?
    ensures var below := SetIn(ChildOf(d, keys[j]).fields, keys[j + 1..], x);
      below.Err? ==> SetIn(d, keys[j..], x) == below
  {
    SetInStep(d, keys, j, x);
  }

  /** After a successful set the path holds the value: `get` returns it, whatever the default, unless it is None. */
  lemma {:induction false} SetThenGet(d: Dict, keys: seq<string>, x: Value, default: Value)
    requires keys != [] && SetIn(d, keys, x).Ok?
    ensures ResolveIn(SetIn(d, keys, x).value, keys) == if x == Null then NoneStored else Found(x)
    ensures x != Null ==> GetFrom(Obj(SetIn(d, keys, x).value), keys, default) == Ok(x)
    decreases |keys|
  {
    if |keys| > 1 {
      SetThenGet(ChildOf(d, keys[0]).fields, keys[1..], x, default);
    }
    GetResolves(SetIn(d, keys, x).value, keys, default);
  }

  /** Two paths part ways: at some segment both have, they differ. */
  predicate Diverges(p: seq<string>, keys: seq<string>)
    decreases |p|
  {
    p != [] && keys != [] && (p[0] != keys[0] || Diverges(p[1..], keys[1..]))
  }

  /**
   * A set changes no other path: along a path that parts from the one set,
   * `get` with no default returns what it returned before, and anything the
   * path held, a None or a non-dict in the way are still there.
   */
  lemma {:induction false} SetLeavesOthers(d: Dict, keys: seq<string>, x: Value, p: seq<string>)
    requires keys != [] && SetIn(d, keys, x).Ok? && Diverges(p, keys)
    ensures GetFrom(Obj(SetIn(d, keys, x).value), p, Null) == GetFrom(Obj(d), p, Null)
    ensures !ResolveIn(d, p).Absent? ==> ResolveIn(SetIn(d, keys, x).value, p) == ResolveIn(d, p)
    decreases |keys|
  {
    var g := SetIn(d, keys, x).value;
    var k := keys[0];
    if p[0] != k {
      assert (p[0] in g <==> p[0] in d) && (p[0] in d ==> g[p[0]] == d[p[0]]);
    } else {
      assert Diverges(p[1..], keys[1..]);
      var child := ChildOf(d, k);
      var c := SetIn(child.fields, keys[1..], x).value;
      assert g == d[k := Obj(c)];
      SetLeavesOthers(child.fields, keys[1..], x, p[1..]);
      assert child == Obj(child.fields);
    }
  }

  /**
   * `set` succeeds exactly when every proper prefix of the path is missing
   * or holds a dict: missing intermediates are created, anything else that
   * is not a dict (None included) makes it raise.
   */
  lemma {:induction false} SetInOkIff(d: Dict, keys: seq<string>, x: Value)
    requires keys != []
    ensures SetIn(d, keys, x).Ok? <==>
      forall j :: 1 <= j < |keys| ==>
        ResolveIn(d, keys[..j]).Absent? || (ResolveIn(d, keys[..j]).Found? && ResolveIn(d, keys[..j]).held.Obj?)
    decreases |keys|
  {
    var k := keys[0];
    if |keys| > 1 {
      assert keys[..1] == [k];
      var child := ChildOf(d, k);
      if k !in d {
        assert SetIn(child.fields, keys[1..], x).Ok? by {
          SetInOkIff(child.fields, keys[1..], x);
          forall j | 1 <= j < |keys[1..]|
            ensures ResolveIn(child.fields, keys[1..][..j]).Absent?
          {
            assert keys[1..][..j][0] == keys[1];
          }
        }
        forall j | 1 <= j < |keys|
          ensures ResolveIn(d, keys[..j]).Absent?
        {
          assert keys[..j][0] == k;
        }
      } else if child.Obj? {
        SetInOkIff(child.fields, keys[1..], x);
        forall j | 2 <= j < |keys|
          ensures ResolveIn(d, keys[..j]) == ResolveIn(child.fields, keys[1..][..j - 1])
        {
          assert keys[..j][0] == k && keys[..j][1..] == keys[1..][..j - 1];
        }
        if SetIn(d, keys, x).Ok? {
          forall j | 1 <= j < |keys|
            ensures ResolveIn(d, keys[..j]).Absent? || (ResolveIn(d, keys[..j]).Found? && ResolveIn(d, keys[..j]).held.Obj?)
          {
            if j > 1 {
              assert ResolveIn(d, keys[..j]) == ResolveIn(child.fields, keys[1..][..j - 1]);
            }
          }
        } else {
          var j' :| 1 <= j' < |keys[1..]| &&
            !(ResolveIn(child.fields, keys[1..][..j']).Absent? ||
              (ResolveIn(child.fields, keys[1..][..j']).Found? && ResolveIn(child.fields, keys[1..][..j']).held.Obj?));
          assert ResolveIn(d, keys[..j' + 1]) == ResolveIn(child.fields, keys[1..][..j']);
        }
      } else {
        assert ResolveIn(d, keys[..1]) == if d[k] == Null then NoneStored else Found(d[k]);
      }
    }
  }

  /**
   * The `setdefault` loop of `set` over all keys but the last: the dicts
   * along the path (frames[j] is the target after j steps), or the
   * exception raised on meeting a non-dict.
   */
  method WalkPath(d: Dict, keys: seq<string>, x: Value) returns (frames: seq<Dict>, err: Option<string>)
    requires keys != []
    ensures err.Some? ==> SetIn(d, keys, x) == Err(err.value)
    ensures err.None? ==> |frames| == |keys| && frames[0] == d
    ensures err.None? ==> forall i :: 0 <= i < |keys| - 1 ==>
      ChildOf(frames[i], keys[i]).Obj? && frames[i + 1] == ChildOf(frames[i], keys[i]).fields
  {
    var n := |keys|;
    assert keys[0..] == keys;
    frames := [d];
    var j := 0;
    while j < n - 1
      invariant 0 <= j <= n - 1 && |frames| == j + 1 && frames[0] == d
      invariant forall i :: 0 <= i < j ==> ChildOf(frames[i], keys[i]).Obj? && frames[i + 1] == ChildOf(frames[i], keys[i]).fields
      invariant SetIn(frames[j], keys[j..], x).Err? ==> SetIn(d, keys, x) == SetIn(frames[j], keys[j..], x)
    {
      var child := ChildOf(frames[j], keys[j]);
      if !child.Obj? {
        SetInStuck(frames[j], keys, j, x);
        return frames, Some(if n - j == 2 then "TypeError" else "AttributeError");
      }
      SetInDescend(frames[j], keys, j, x);
      WalkedSnoc(frames, keys, j);
      frames := frames + [child.fields];
      j := j + 1;
    }
    err := None;
  }

  /** The walk goes one dict further down when the child at keys[j] is a dict. */
  lemma WalkedSnoc(frames: seq<Dict>, keys: seq<string>, j: nat)
    requires j < |keys| && |frames| == j + 1
    requires forall i :: 0 <= i < j ==> ChildOf(frames[i], keys[i]).Obj? && frames[i + 1] == ChildOf(frames[i], keys[i]).fields
    requires ChildOf(frames[j], keys[j]).Obj?
    ensures var next := frames + [ChildOf(frames[j], keys[j]).fields];
      forall i :: 0 <= i < j + 1 ==> ChildOf(next[i], keys[i]).Obj? && next[i + 1] == ChildOf(next[i], keys[i]).fields
  {
    var next := frames + [ChildOf(frames[j], keys[j]).fields];
    assert forall i :: 0 <= i <= j ==> next[i] == frames[i];
  }

  /**
   * `target[keys[-1]] = value`, propagated back up the dicts of the walk:
   * the dict `set` leaves behind.
   */
  method Rebuild(frames: seq<Dict>, keys: seq<string>, x: Value) returns (result: Dict)
    requires keys != [] && |frames| == |keys|
    requires forall i :: 0 <= i < |keys| - 1 ==>
      ChildOf(frames[i], keys[i]).Obj? && frames[i + 1] == ChildOf(frames[i], keys[i]).fields
    ensures SetIn(frames[0], keys, x) == Ok(result)
  {
    var n := |keys|;
    assert keys[n - 1..] == [keys[n - 1]];
    result := frames[n - 1][keys[n - 1] := x];
    var i := n - 1;
    while i > 0
      invariant 0 <= i <= n - 1
      invariant SetIn(frames[i], keys[i..], x) == Ok(result)
    {
      i := i - 1;
      SetInStep(frames[i], keys, i, x);
      result := frames[i][keys[i] := Obj(result)];
    }
    assert keys[0..] == keys;
  }

  // ---------------------------------------------------------------------------
  // update
  // ---------------------------------------------------------------------------

  /**
   * `update`: `set` for each entry in order; the first one that raises
   * stops the rest, and the entries before it stay applied.
   */
  function ApplyUpdates(d: Dict, updates: seq<(string, Value)>): (Dict, Option<string>)
    decreases |updates|
  {
    if updates == [] then (d, None)
    else
      var first := SetIn(d, SplitOn(updates[0].0, "."), updates[0].1);
      if first.Err? then (d, Some(first.error)) else ApplyUpdates(first.value, updates[1..])
  }

  /** Updating with a + b is updating with a, then, unless that raised, with b. */
  lemma {:induction false} ApplyUpdatesAppend(d: Dict, a: seq<(string, Value)>, b: seq<(string, Value)>)
    ensures ApplyUpdates(d, a + b) ==
      var (d1, e1) := ApplyUpdates(d, a);
      if e1.Some? then (d1, e1) else ApplyUpdates(d1, b)
    decreases |a|
  {
    if a == [] {
      assert a + b == b;
    } else {
      assert (a + b)[0] == a[0] && (a + b)[1..] == a[1..] + b;
      var first := SetIn(d, SplitOn(a[0].0, "."), a[0].1);
      if first.Ok? {
        ApplyUpdatesAppend(first.value, a[1..], b);
      }
    }
  }

  /** An update with one entry is that one set. */
  lemma ApplyOneUpdate(d: Dict, key: string, x: Value)
    ensures var s := SetIn(d, SplitOn(key, "."), x);
      ApplyUpdates(d, [(key, x)]) == if s.Ok? then (s.value, None) else (d, Some(s.error))
  {
    assert [(key, x)][1..] == [];
  }

  // ---------------------------------------------------------------------------
  // Validation messages
  // ---------------------------------------------------------------------------

  /** The required project fields and their labels, in checking order. */
  const RequiredFields: seq<(string, string)> := [
    ("title", "Título del proyecto"),
    ("country", "País"),
    ("donor", "Donante/Financiador"),
    ("duration_months", "Duración")
  ]

  function RequiredError(caption: string): string {
    "• " + caption + " es requerido"
  }

  const DurationNumericError := "• Duración debe ser un número de meses"
  const TorPathError := "• Falta seleccionar archivo de ToR"
  const TorContentError := "• Falta procesar el contenido del ToR"
  const TorChunksError := "• Falta análisis del documento ToR"
  const DeepSeekError := "• API de DeepSeek no configurada correctamente"
  const SonnetError := "• API de Sonnet no configurada correctamente"

  /** `project.get(field, "")`. */
  function FieldText(project: Dict, field: string): Value {
    if field in project then project[field] else Str("")
  }

  /** The errors of the required-field loop over the given fields; `.strip()` on a non-string raises. */
  function BlankErrors(project: Dict, fields: seq<(string, string)>): Result<seq<string>>
    decreases |fields|
  {
    if fields == [] then Ok([])
    else
      var before := BlankErrors(project, fields[..|fields| - 1]);
      var v := FieldText(project, fields[|fields| - 1].0);
      if before.Err? then before
      else if !v.Str? then Err("AttributeError")
      else Ok(before.value + if Strip(v.s) == [] then [RequiredError(fields[|fields| - 1].1)] else [])
  }

  /** The duration check: present (non-empty) but not all digits once stripped. */
  predicate DurationNotNumeric(project: Dict) {
    var dur := FieldText(project, "duration_months");
    dur.Str? && dur.s != [] && !IsDigits(Strip(dur.s))
  }

  /** What `validate_project` reports for the value of "project". */
  function ProjectErrors(project: Value): Result<seq<string>> {
    if !project.Obj? then Err("AttributeError")
    else
      var blank := BlankErrors(project.fields, RequiredFields);
      if blank.Err? then blank
      else Ok(blank.value + if DurationNotNumeric(project.fields) then [DurationNumericError] else [])
  }

  /** The required-field loop's errors after one more field. */
  lemma BlankErrorsSnoc(project: Dict, i: nat)
    requires i < |RequiredFields|
    ensures var before := BlankErrors(project, RequiredFields[..i]);
      var v := FieldText(project, RequiredFields[i].0);
      BlankErrors(project, RequiredFields[..i + 1]) ==
        if before.Err? then before
        else if !v.Str? then Err("AttributeError")
        else Ok(before.value + if Strip(v.s) == [] then [RequiredError(RequiredFields[i].1)] else [])
  {
    assert RequiredFields[..i + 1][..i] == RequiredFields[..i];
    assert RequiredFields[..i + 1][i] == RequiredFields[i];
  }

  /** One more required field: a blank string adds its message, any other string adds nothing. */
  lemma BlankErrorsKept(project: Dict, i: nat, before: seq<string>, after: seq<string>)
    requires i < |RequiredFields| && BlankErrors(project, RequiredFields[..i]) == Ok(before)
    requires FieldText(project, RequiredFields[i].0).Str?
    requires var v := FieldText(project, RequiredFields[i].0);
      after == if Strip(v.s) == [] then before + [RequiredError(RequiredFields[i].1)] else before
    ensures BlankErrors(project, RequiredFields[..i + 1]) == Ok(after)
  {
    BlankErrorsSnoc(project, i);
    if Strip(FieldText(project, RequiredFields[i].0).s) != [] {
      assert before + [] == before;
    }
  }

  /** The required-field loop of `validate_project`, in field order. */
  method RequiredFieldErrors(project: Dict) returns (r: Result<seq<string>>)
    ensures r.Err? <==> BlankErrors(project, RequiredFields).Err?
    ensures r.Ok? ==> r.value == BlankErrors(project, RequiredFields).value
  {
    var errors: seq<string> := [];
    var i := 0;
    while i < |RequiredFields|
      invariant 0 <= i <= |RequiredFields|
      invariant BlankErrors(project, RequiredFields[..i]) == Ok(errors)
    {
      BlankErrorsSnoc(project, i);
      var field := RequiredFields[i].0;
      var caption := RequiredFields[i].1;
      var v := FieldText(project, field);
      if !v.Str? {
        BlankErrorsPrefixErr(project, i + 1);
        return Err("AttributeError");
      }
      var before := errors;
      if Strip(v.s) == [] {
        errors := errors + [RequiredError(caption)];
      }
      BlankErrorsKept(project, i, before, errors);
      i := i + 1;
    }
    assert RequiredFields[..i] == RequiredFields;
    r := Ok(errors);
  }

  /** A required field holds a string that is not blank. */
  predicate FilledIn(project: Dict, field: string) {
    FieldText(project, field).Str? && Strip(FieldText(project, field).s) != []
  }

  /** The required fields all hold strings (otherwise `.strip()` raises). */
  predicate AllText(project: Dict) {
    FieldText(project, "title").Str? && FieldText(project, "country").Str? &&
    FieldText(project, "donor").Str? && FieldText(project, "duration_months").Str?
  }

  function MissingError(project: Dict, field: string, caption: string): seq<string> {
    if FilledIn(project, field) then [] else [RequiredError(caption)]
  }

  lemma BlankErrorsUnfold(project: Dict)
    ensures BlankErrors(project, RequiredFields) ==
      if !AllText(project) then Err("AttributeError")
      else Ok(MissingError(project, "title", "Título del proyecto") +
              MissingError(project, "country", "País") +
              MissingError(project, "donor", "Donante/Financiador") +
              MissingError(project, "duration_months", "Duración"))
  {
    var t := MissingError(project, "title", "Título del proyecto");
    var c := MissingError(project, "country", "País");
    var dn := MissingError(project, "donor", "Donante/Financiador");
    var du := MissingError(project, "duration_months", "Duración");
    var text0 := FieldText(project, "title").Str?;
    var text1 := text0 && FieldText(project, "country").Str?;
    var text2 := text1 && FieldText(project, "donor").Str?;
    assert BlankErrors(project, RequiredFields[..1]) == if !text0 then Err("AttributeError") else Ok(t) by {
      assert RequiredFields[..0] == [];
      BlankErrorsSnoc(project, 0);
      assert [] + t == t;
    }
    assert BlankErrors(project, RequiredFields[..2]) == if !text1 then Err("AttributeError") else Ok(t + c) by {
      BlankErrorsSnoc(project, 1);
    }
    assert BlankErrors(project, RequiredFields[..3]) == if !text2 then Err("AttributeError") else Ok(t + c + dn) by {
      BlankErrorsSnoc(project, 2);
    }
    BlankErrorsSnoc(project, 3);
    assert RequiredFields[..4] == RequiredFields;
  }

  /**
   * A project validates exactly when its four fields are strings that are
   * not blank and its duration, stripped, is all digits; a non-string field
   * raises instead.
   */
  lemma ProjectValidIff(project: Dict)
    ensures ProjectErrors(Obj(project)).Err? <==> !AllText(project)
    ensures ProjectErrors(Obj(project)) == Ok([]) <==>
      FilledIn(project, "title") && FilledIn(project, "country") && FilledIn(project, "donor") &&
      FilledIn(project, "duration_months") && IsDigits(Strip(FieldText(project, "duration_months").s))
  {
    BlankErrorsUnfold(project);
    if AllText(project) {
      var t := MissingError(project, "title", "Título del proyecto");
      var c := MissingError(project, "country", "País");
      var dn := MissingError(project, "donor", "Donante/Financiador");
      var du := MissingError(project, "duration_months", "Duración");
      var numeric: seq<string> := if DurationNotNumeric(project) then [DurationNumericError] else [];
      assert ProjectErrors(Obj(project)) == Ok(t + c + dn + du + numeric);
      assert |t + c + dn + du + numeric| == |t| + |c| + |dn| + |du| + |numeric|;
      var dur := FieldText(project, "duration_months").s;
      if FilledIn(project, "duration_months") {
        assert Strip(dur) != [] && dur != [];
      }
    }
  }

  /**
   * `str.isdigit` also accepts the superscript digits: a duration of "1²"
   * passes validation, although `int` would reject it.
   */
  lemma SuperscriptDurationValid(project: Dict)
    requires FilledIn(project, "title") && FilledIn(project, "country") && FilledIn(project, "donor")
    requires FieldText(project, "duration_months") == Str("1\U{B2}")
    ensures ProjectErrors(Obj(project)) == Ok([])
  {
    StripPadded("", "1\U{B2}", "");
    assert "" + "1\U{B2}" + "" == "1\U{B2}";
    ProjectValidIff(project);
  }

  /** A duration of only spaces is reported twice: as missing and as not a number. */
  lemma WhitespaceDurationTwoErrors(project: Dict)
    requires FilledIn(project, "title") && FilledIn(project, "country") && FilledIn(project, "donor")
    requires FieldText(project, "duration_months").Str?
    requires FieldText(project, "duration_months").s != [] && AllSpace(FieldText(project, "duration_months").s)
    ensures ProjectErrors(Obj(project)) == Ok([RequiredError("Duración"), DurationNumericError])
  {
    BlankErrorsUnfold(project);
    var dur := FieldText(project, "duration_months").s;
    StripEmptyIffBlank(dur);
    assert Strip(dur) == [] && !IsDigits(Strip(dur));
    assert DurationNotNumeric(project);
    assert MissingError(project, "duration_months", "Duración") == [RequiredError("Duración")];
    assert BlankErrors(project, RequiredFields) == Ok([] + [] + [] + [RequiredError("Duración")]);
    assert [] + [] + [] + [RequiredError("Duración")] == [RequiredError("Duración")];
    assert [RequiredError("Duración")] + [DurationNumericError] == [RequiredError("Duración"), DurationNumericError];
  }

  // ---------------------------------------------------------------------------
  // The state snapshot and the load merge
  // ---------------------------------------------------------------------------

  /** `_save_state`'s copy: the state without "tor_content". */
  function Snapshot(state: Dict): (r: Dict)
    ensures "tor_content" !in r
    ensures r.Keys == state.Keys - {"tor_content"}
    ensures forall k :: k in r ==> r[k] == state[k]
  {
    state - {"tor_content"}
  }

  /** One entry of the load merge: a saved dict is merged into a dict entry, anything else replaces it. */
  function MergeEntry(state: Dict, saved: Dict, k: string): Value
    requires k in saved
  {
    if k in state && state[k].Obj? && saved[k].Obj? then Obj(state[k].fields + saved[k].fields) else saved[k]
  }

  /** The state after merging in the saved entries outside `pending`. */
  function MergedExcept(state: Dict, saved: Dict, pending: set<string>): Dict {
    map k | k in state.Keys + (saved.Keys - pending) ::
      if k in saved && k !in pending then MergeEntry(state, saved, k) else state[k]
  }

  /** The state after `_load_state` merged in a saved dict. */
  function Merged(state: Dict, saved: Dict): Dict {
    MergedExcept(state, saved, {})
  }

  /**
   * Loading the snapshot of a state into that same state changes nothing:
   * what is saved is restored as it was.
   */
  lemma ReloadSnapshot(state: Dict)
    ensures Merged(state, Snapshot(state)) == state
  {
    var m := Merged(state, Snapshot(state));
    forall k | k in state
      ensures m[k] == state[k]
    {
      if k != "tor_content" && state[k].Obj? {
        assert state[k].fields + state[k].fields == state[k].fields;
      }
    }
  }

  /**
   * After a restart the saved state comes back without "tor_content": that
   * entry keeps its start-up value, a saved non-dict entry comes back as
   * saved, and a saved dict entry comes back with all its saved fields.
   */
  lemma RestoreAfterRestart(initial: Dict, state: Dict)
    requires "tor_content" in initial
    ensures Merged(initial, Snapshot(state))["tor_content"] == initial["tor_content"]
    ensures forall k :: k in state && k != "tor_content" && !state[k].Obj? ==>
      Merged(initial, Snapshot(state))[k] == state[k]
    ensures forall k :: k in state && k != "tor_content" && state[k].Obj? ==>
      Merged(initial, Snapshot(state))[k].Obj? &&
      forall f :: f in state[k].fields ==>
        (f in Merged(initial, Snapshot(state))[k].fields &&
         Merged(initial, Snapshot(state))[k].fields[f] == state[k].fields[f])
  {
  }

  /** The state `__init__` starts from, before loading. */
  const InitialState: Dict := map[
    "project" := Obj(map[]),
    "tor_path" := Null,
    "tor_content" := Null,
    "tor_chunks" := Obj(map[]),
    "models" := Obj(map[
      "narrative" := Str("DeepSeek"),
      "budget" := Str("Sonnet"),
      "temperature" := Real(0.2),
      "max_tokens" := Int(4000),
      "language" := Str("es")]),
    "templates" := Obj(map["docx" := Null, "xlsx" := Null]),
    "results" := Obj(map["narrative" := Null, "budget" := Null, "output_paths" := Obj(map[])]),
    "api_status" := Obj(map["deepseek" := Bool(false), "sonnet" := Bool(false)]),
    "processing" := Obj(map["active" := Bool(false), "current_step" := Null, "progress" := Int(0)])
  ]

  /** `self._state.get(key)` for a top-level key. */
  function Top(state: Dict, key: string): Value {
    if key in state then state[key] else Null
  }

  /** `get(key)` of a key without dots is the plain lookup. */
  lemma GetTop(state: Dict, key: string)
    requires NoDot(key)
    ensures GetFrom(Obj(state), SplitOn(key, "."), Null) == Ok(Top(state, key))
  {
    SplitWithoutDot(key);
    assert [key][1..] == [];
  }

  /** `get("api_status." + api)` is the status, or AttributeError when "api_status" is a non-dict. */
  lemma GetApiStatus(state: Dict, api: string)
    requires NoDot(api)
    ensures var r := GetFrom(Obj(state), SplitOn("api_status." + api, "."), Null);
      (r.Err? <==> ApiStatusBlocked(state)) && (r.Ok? ==> r.value == ApiStatus(state, api))
  {
    assert NoDot("api_status") by {
      var k := "api_status";
      assert k[0] == 'a' && k[1] == 'p' && k[2] == 'i' && k[3] == '_' && k[4] == 's';
      assert k[5] == 't' && k[6] == 'a' && k[7] == 't' && k[8] == 'u' && k[9] == 's';
    }
    SplitAtDot("api_status", api);
    assert "api_status" + "." + api == "api_status." + api;
    var keys := ["api_status", api];
    assert keys[0] == "api_status" && keys[1..] == [api] && [api][0] == api && [api][1..] == [];
    var next := Top(state, "api_status");
    assert GetFrom(Obj(state), keys, Null) == if next == Null then Ok(Null) else GetFrom(next, [api], Null);
  }

  /** The two keys `validate_apis` reads. */
  lemma GetApiStatusKeys(state: Dict)
    ensures var r := GetFrom(Obj(state), SplitOn("api_status.deepseek", "."), Null);
      (r.Err? <==> ApiStatusBlocked(state)) && (r.Ok? ==> r.value == ApiStatus(state, "deepseek"))
    ensures var r := GetFrom(Obj(state), SplitOn("api_status.sonnet", "."), Null);
      (r.Err? <==> ApiStatusBlocked(state)) && (r.Ok? ==> r.value == ApiStatus(state, "sonnet"))
  {
    assert NoDot("deepseek") && NoDot("sonnet");
    GetApiStatus(state, "deepseek");
    GetApiStatus(state, "sonnet");
    assert "api_status." + "deepseek" == "api_status.deepseek";
    assert "api_status." + "sonnet" == "api_status.sonnet";
  }

  /** The three keys `validate_tor` reads are plain lookups. */
  lemma GetTorKeys(state: Dict)
    ensures GetFrom(Obj(state), SplitOn("tor_path", "."), Null) == Ok(Top(state, "tor_path"))
    ensures GetFrom(Obj(state), SplitOn("tor_content", "."), Null) == Ok(Top(state, "tor_content"))
    ensures GetFrom(Obj(state), SplitOn("tor_chunks", "."), Null) == Ok(Top(state, "tor_chunks"))
  {
    assert NoDot("tor_path") && NoDot("tor_content") && NoDot("tor_chunks");
    GetTop(state, "tor_path");
    GetTop(state, "tor_content");
    GetTop(state, "tor_chunks");
  }

  /** The messages `validate_tor` collects, given which of its three parts are present. */
  function TorMessages(path: bool, content: bool, chunks: bool): seq<string> {
    (if path then [] else [TorPathError]) + (if content then [] else [TorContentError]) +
    (if chunks then [] else [TorChunksError])
  }

  /** Each ToR message is collected exactly when its part is missing, and at most once. */
  lemma TorMessagesSpec(path: bool, content: bool, chunks: bool)
    ensures TorPathError in TorMessages(path, content, chunks) <==> !path
    ensures TorContentError in TorMessages(path, content, chunks) <==> !content
    ensures TorChunksError in TorMessages(path, content, chunks) <==> !chunks
    ensures |TorMessages(path, content, chunks)| ==
      (if path then 0 else 1) + (if content then 0 else 1) + (if chunks then 0 else 1)
  {
    MessagesDistinct();
  }

  /** The validation messages differ from each other. */
  lemma MessagesDistinct()
    ensures TorPathError != TorContentError && TorPathError != TorChunksError && TorContentError != TorChunksError
    ensures DeepSeekError != SonnetError
  {
    assert TorPathError[8] == 's' && TorContentError[8] == 'p' && TorChunksError[8] == 'a';
    assert DeepSeekError[9] == 'D' && SonnetError[9] == 'S';
  }

  /** The value `get("project", {})` returns. */
  function ProjectOf(state: Dict): Value {
    if "project" in state && state["project"] != Null then state["project"] else Obj(map[])
  }

  /** `get("api_status.<api>")` raises when "api_status" holds a non-dict other than None. */
  predicate ApiStatusBlocked(state: Dict) {
    "api_status" in state && state["api_status"] != Null && !state["api_status"].Obj?
  }

  /** The value `get("api_status.<api>")` returns when it does not raise. */
  function ApiStatus(state: Dict, api: string): Value {
    if "api_status" in state && state["api_status"].Obj? && api in state["api_status"].fields
    then state["api_status"].fields[api] else Null
  }

  class StateManager {
    /** `_state`. */
    var state: Dict
    /** The snapshot last written by `_save_state`, None before any `set`. */
    var lastSaved: Option<Dict>

    /** `__init__`: the start-up state, then the saved file merged in (`saved` is None when there is none or it does not parse). */
    constructor(saved: Option<Value>)
      ensures lastSaved == None
      ensures state == if saved.Some? && saved.value.Obj? then Merged(InitialState, saved.value.fields) else InitialState
    {
      state := InitialState;
      lastSaved := None;
      new;
      if saved.Some? {
        LoadState(saved.value);
      }
    }

    /** `get(key, default)`. */
    method Get(key: string, default: Value) returns (r: Result<Value>)
      ensures r == GetFrom(Obj(state), SplitOn(key, "."), default)
    {
      var keys := SplitOn(key, ".");
      var value := Obj(state);
      var i := 0;
      while i < |keys|
        invariant 0 <= i <= |keys|
        invariant GetFrom(Obj(state), keys, default) == GetFrom(value, keys[i..], default)
      {
        assert keys[i..][0] == keys[i] && keys[i..][1..] == keys[i + 1..];
        if !value.Obj? {
          return Err("AttributeError");
        }
        var k := keys[i];
        value := if k in value.fields then value.fields[k] else default;
        if value == Null {
          return Ok(default);
        }
        i := i + 1;
      }
      assert keys[i..] == [];
      r := Ok(value);
    }

    /**
     * `set(key, value)`: walk down with `setdefault`, creating missing
     * dicts, assign the last key, then save the snapshot. When it raises,
     * nothing has changed.
     */
    method Set(key: string, x: Value) returns (r: Result<()>)
      modifies this
      ensures var s := SetIn(old(state), SplitOn(key, "."), x);
        if s.Ok? then r.Ok? && state == s.value && lastSaved == Some(Snapshot(state))
        else r == Err(s.error) && state == old(state) && lastSaved == old(lastSaved)
    {
      var keys := SplitOn(key, ".");
      var frames, err := WalkPath(state, keys, x);
      if err.Some? {
        return Err(err.value);
      }
      var result := Rebuild(frames, keys, x);
      state := result;
      lastSaved := Some(Snapshot(state));
      r := Ok(());
    }

    /** `update(updates)`: the entries of the dict in its order, each through `set`. */
    method Update(updates: seq<(string, Value)>) returns (r: Result<()>)
      modifies this
      ensures state == ApplyUpdates(old(state), updates).0
      ensures ApplyUpdates(old(state), updates).1.Some? ==> r == Err(ApplyUpdates(old(state), updates).1.value)
      ensures ApplyUpdates(old(state), updates).1.None? ==> r.Ok?
      ensures if updates != [] && SetIn(old(state), SplitOn(updates[0].0, "."), updates[0].1).Ok?
        then lastSaved == Some(Snapshot(state)) else lastSaved == old(lastSaved)
    {
      var i := 0;
      while i < |updates|
        invariant 0 <= i <= |updates|
        invariant ApplyUpdates(old(state), updates) == ApplyUpdates(state, updates[i..])
        invariant i == 0 ==> state == old(state) && lastSaved == old(lastSaved)
        invariant i > 0 ==> SetIn(old(state), SplitOn(updates[0].0, "."), updates[0].1).Ok?
        invariant i > 0 ==> lastSaved == Some(Snapshot(state))
      {
        assert updates[i..][0] == updates[i] && updates[i..][1..] == updates[i + 1..];
        var (key, value) := updates[i];
        var res := Set(key, value);
        if res.Err? {
          return res;
        }
        i := i + 1;
      }
      assert updates[i..] == [];
      r := Ok(());
    }

    /** `validate_project`. */
    method ValidateProject() returns (r: Result<(bool, seq<string>)>)
      ensures r.Err? <==> ProjectErrors(ProjectOf(state)).Err?
      ensures r.Ok? ==> r.value.1 == ProjectErrors(ProjectOf(state)).value && (r.value.0 <==> r.value.1 == [])
    {
      SplitWithoutDot("project");
      var got := Get("project", Obj(map[]));
      var project := got.value;
      assert project == ProjectOf(state);
      if !project.Obj? {
        return Err("AttributeError");
      }
      var blank := RequiredFieldErrors(project.fields);
      if blank.Err? {
        return Err(blank.error);
      }
      var errors := blank.value;
      var duration := FieldText(project.fields, "duration_months");
      if duration.s != [] && !IsDigits(Strip(duration.s)) {
        errors := errors + [DurationNumericError];
      }
      r := Ok((errors == [], errors));
    }

    /** `validate_tor`: one message per missing ToR part. */
    method ValidateTor() returns (ok: bool, errors: seq<string>)
      ensures TorPathError in errors <==> !Truthy(Top(state, "tor_path"))
      ensures TorContentError in errors <==> !Truthy(Top(state, "tor_content"))
      ensures TorChunksError in errors <==> !Truthy(Top(state, "tor_chunks"))
      ensures |errors| == (if Truthy(Top(state, "tor_path")) then 0 else 1) +
        (if Truthy(Top(state, "tor_content")) then 0 else 1) + (if Truthy(Top(state, "tor_chunks")) then 0 else 1)
      ensures ok <==> errors == []
    {
      errors := [];
      GetTorKeys(state);
      var path := Get("tor_path", Null);
      if !Truthy(path.value) {
        errors := errors + [TorPathError];
      }
      var content := Get("tor_content", Null);
      if !Truthy(content.value) {
        errors := errors + [TorContentError];
      }
      var chunks := Get("tor_chunks", Null);
      if !Truthy(chunks.value) {
        errors := errors + [TorChunksError];
      }
      ok := |errors| == 0;
      TorMessagesSpec(Truthy(path.value), Truthy(content.value), Truthy(chunks.value));
    }

    /** `validate_apis`: one message per API whose status is not truthy. */
    method ValidateApis() returns (r: Result<(bool, seq<string>)>)
      ensures r.Err? <==> ApiStatusBlocked(state)
      ensures r.Ok? ==> (DeepSeekError in r.value.1 <==> !Truthy(ApiStatus(state, "deepseek")))
      ensures r.Ok? ==> (SonnetError in r.value.1 <==> !Truthy(ApiStatus(state, "sonnet")))
      ensures r.Ok? ==>
        (|r.value.1| == (if Truthy(ApiStatus(state, "deepseek")) then 0 else 1) +
                        (if Truthy(ApiStatus(state, "sonnet")) then 0 else 1))
      ensures r.Ok? ==> (r.value.0 <==> r.value.1 == [])
    {
      MessagesDistinct();
      GetApiStatusKeys(state);
      var errors: seq<string> := [];
      var deepseek := Get("api_status.deepseek", Null);
      if deepseek.Err? {
        return Err(deepseek.error);
      }
      if !Truthy(deepseek.value) {
        errors := errors + [DeepSeekError];
      }
      var sonnet := Get("api_status.sonnet", Null);
      assert sonnet.Ok?;
      if !Truthy(sonnet.value) {
        errors := errors + [SonnetError];
      }
      r := Ok((|errors| == 0, errors));
    }

    /**
     * The merge loop of `_load_state`. A saved value that is not a dict
     * makes `.items()` raise, which is swallowed: nothing changes.
     */
    method LoadState(saved: Value)
      modifies this
      ensures state == if saved.Obj? then Merged(old(state), saved.fields) else old(state)
      ensures lastSaved == old(lastSaved)
    {
      if !saved.Obj? {
        return;
      }
      var pending := saved.fields.Keys;
      ghost var start := state;
      assert state == MergedExcept(start, saved.fields, pending);
      while pending != {}
        invariant pending <= saved.fields.Keys
        invariant state == MergedExcept(start, saved.fields, pending)
        invariant lastSaved == old(lastSaved)
        decreases pending
      {
        var k :| k in pending;
        var value := saved.fields[k];
        if k in state && state[k].Obj? && value.Obj? {
          state := state[k := Obj(state[k].fields + value.fields)];
        } else {
          state := state[k := value];
        }
        pending := pending - {k};
      }
    }
  }

  lemma {:induction false} BlankErrorsPrefixErr(project: Dict, i: nat)
    requires 1 <= i <= |RequiredFields| && BlankErrors(project, RequiredFields[..i]).Err?
    ensures BlankErrors(project, RequiredFields).Err?
    decreases |RequiredFields| - i
  {
    if i < |RequiredFields| {
      assert RequiredFields[..i + 1][..i] == RequiredFields[..i];
      BlankErrorsPrefixErr(project, i + 1);
    } else {
      assert RequiredFields[..i] == RequiredFields;
    }
  }

  // ---------------------------------------------------------------------------
  // ProgressManager
  // ---------------------------------------------------------------------------

  /** `int((current / len(steps)) * 100) if steps else 0`, as an exact floor. */
  function ProgressPercent(current: nat, total: nat): nat {
    if total == 0 then 0 else current * 100 / total
  }

  /** Multiplying by a natural number keeps the order. */
  lemma {:induction false} MulMonotone(a: int, b: int, k: nat)
    requires a <= b
    ensures a * k <= b * k
    decreases k
  {
    if k > 0 {
      MulMonotone(a, b, k - 1);
      assert a * k == a * (k - 1) + a && b * k == b * (k - 1) + b;
    }
  }

  /** Dividing by a positive number keeps the order. */
  lemma DivMonotone(a: nat, b: nat, d: nat)
    requires a <= b && d > 0
    ensures a / d <= b / d
  {
    var qa, qb := a / d, b / d;
    if qa > qb {
      MulMonotone(qb + 1, qa, d);
      assert false;
    }
  }

  /**
   * The reported percentage is the floor of current/total as a percentage:
   * 0 with no steps, otherwise the largest p with p*total <= current*100.
   */
  lemma ProgressPercentFloor(current: nat, total: nat)
    ensures total == 0 ==> ProgressPercent(current, total) == 0
    ensures total > 0 ==> ProgressPercent(current, total) * total <= current * 100 < (ProgressPercent(current, total) + 1) * total
  {
    if total > 0 {
      var p := current * 100 / total;
      assert current * 100 == p * total + current * 100 % total;
    }
  }

  /** More steps done never lower the percentage. */
  lemma ProgressPercentMonotone(current: nat, later: nat, total: nat)
    requires current <= later
    ensures ProgressPercent(current, total) <= ProgressPercent(later, total)
  {
    if total > 0 {
      MulMonotone(current, later, 100);
      DivMonotone(current * 100, later * 100, total);
    }
  }

  /** The percentage reaches 100 exactly when every step is done, and is at most 100 until then. */
  lemma ProgressPercentFull(current: nat, total: nat)
    requires total > 0
    ensures ProgressPercent(current, total) >= 100 <==> current >= total
    ensures current <= total ==> ProgressPercent(current, total) <= 100
  {
    var p := ProgressPercent(current, total);
    assert total * 100 / total == 100;
    if current <= total {
      ProgressPercentMonotone(current, total, total);
    }
    if current >= total {
      ProgressPercentMonotone(total, current, total);
    }
    if p >= 100 {
      ProgressPercentFloor(current, total);
      MulMonotone(100, p, total);
      assert 100 * total <= current * 100;
    }
  }

  /**
   * The label `next_step` reports: the given text, else the step's own
   * name while in range, and "Paso N" whenever that is empty or missing.
   */
  function StepLabel(steps: seq<string>, current: nat, stepText: Option<string>): string {
    var text := if stepText.None? && 1 <= current <= |steps| then Some(steps[current - 1]) else stepText;
    if text.Some? && text.value != "" then text.value else "Paso " + NatToString(current)
  }

  /** A label is never empty; a named step in range labels itself; past the last step it is "Paso N". */
  lemma StepLabelSpec(steps: seq<string>, current: nat, stepText: Option<string>)
    ensures StepLabel(steps, current, stepText) != ""
    ensures stepText.None? && 1 <= current <= |steps| && steps[current - 1] != "" ==>
      StepLabel(steps, current, stepText) == steps[current - 1]
    ensures stepText.None? && current > |steps| ==> StepLabel(steps, current, stepText) == "Paso " + NatToString(current)
    ensures stepText.Some? && stepText.value != "" ==> StepLabel(steps, current, stepText) == stepText.value
  {
  }

  class ProgressManager {
    var steps: seq<string>
    var currentStep: nat

    /** The progress callback is left out: the reports are the methods' results. */
    constructor()
      ensures steps == [] && currentStep == 0
    {
      steps := [];
      currentStep := 0;
    }

    /** `set_steps`: new steps, counting from 0 again. */
    method SetSteps(newSteps: seq<string>)
      modifies this
      ensures steps == newSteps && currentStep == 0
    {
      steps := newSteps;
      currentStep := 0;
    }

    /** `update`: reports the given progress, or the current percentage. */
    method Update(stepText: string, progress: Option<int>) returns (reported: int, text: string)
      ensures progress.Some? ==> reported == progress.value
      ensures progress.None? ==> reported == ProgressPercent(currentStep, |steps|)
      ensures text == stepText
    {
      if progress.None? {
        reported := if |steps| > 0 then currentStep * 100 / |steps| else 0;
      } else {
        reported := progress.value;
      }
      text := stepText;
    }

    /** `next_step`: one more step done, reported with its percentage and label. */
    method NextStep(stepText: Option<string>) returns (progress: nat, caption: string)
      modifies this
      ensures steps == old(steps) && currentStep == old(currentStep) + 1
      ensures progress == ProgressPercent(currentStep, |steps|)
      ensures caption == StepLabel(steps, currentStep, stepText)
    {
      currentStep := currentStep + 1;
      var text := stepText;
      if text.None? && currentStep <= |steps| {
        text := Some(steps[currentStep - 1]);
      }
      progress := if |steps| > 0 then currentStep * 100 / |steps| else 0;
      caption := if text.Some? && text.value != "" then text.value else "Paso " + NatToString(currentStep);
    }
  }
}
