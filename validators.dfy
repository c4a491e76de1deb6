/** Field rules and the two combinators that the feed validator composes.

    A record is a partial JavaScript object: a map from field names to values,
    where a name that is not in the map reads as `undefined` (`Absent`). Every
    rule looks one field up, and yields zero or one error naming that field.
 */
module Validators {

  datatype Option<+T> = None | Some(value: T)

  /** A runtime JavaScript value as it can reach the validator. Numbers are
      modelled as reals (no NaN, no infinities, no rounding). */
  datatype Value =
    | Absent                    // undefined, or a field that is not set
    | Null
    | Str(s: string)
    | Num(n: real)
    | Bool(b: bool)
    | List(items: seq<Value>)
    | Obj(properties: map<string, Value>)   // a plain object, `{}` included

  /** Which rule produced an error; bounds are carried with the bound rules. */
  datatype RuleKind =
    | NotEmptyRule
    | NumericRule
    | AtLeastRule(min: real)
    | AtMostRule(max: real)

  /** The message part of an error: the rule and the optional human label the
      caller passed (the message text itself is not modelled). */
  datatype Message = Message(kind: RuleKind, fieldLabel: Option<string>)

  /** One `{field, message}` validation error. */
  datatype ErrorMessage<K> = ErrorMessage(field: K, message: Message)

  type Errors<K> = seq<ErrorMessage<K>>

  function At<K>(rec: map<K, Value>, field: K): Value
  {
    if field in rec then rec[field] else Absent
  }

  /** `undefined`, `null`, `""` and `[]` count as empty. */
  predicate IsEmptyValue(v: Value)
  {
    v == Absent || v == Null || v == Str("") || v == List([])
  }

  /** A value is present when it is anything but `undefined`. */
  predicate IsPresent(v: Value)
  {
    v != Absent
  }

  /** The single error a rule reports, as a one-element list. */
  function Report<K>(field: K, kind: RuleKind, fieldLabel: Option<string>): (r: Errors<K>)
  {
    [ErrorMessage(field, Message(kind, fieldLabel))]
  }

  // ---------------------------------------------------------------------
  // Field rules
  // ---------------------------------------------------------------------

  /** Fails when the field is undefined, null, an empty string or an empty list. */
  function ValidateNotEmpty<K>(rec: map<K, Value>, field: K, fieldLabel: Option<string>): (r: Errors<K>)
    ensures |r| <= 1
    ensures r != [] <==> IsEmptyValue(At(rec, field))
    ensures forall e :: e in r ==> e.field == field && e.message == Message(NotEmptyRule, fieldLabel)
  {
    if IsEmptyValue(At(rec, field)) then Report(field, NotEmptyRule, fieldLabel) else []
  }

  /** Fails only when the field is present and is not a number. */
  function ValidateNumeric<K>(rec: map<K, Value>, field: K, fieldLabel: Option<string>): (r: Errors<K>)
    ensures |r| <= 1
    ensures r != [] <==> IsPresent(At(rec, field)) && !At(rec, field).Num?
    ensures forall e :: e in r ==> e.field == field && e.message == Message(NumericRule, fieldLabel)
  {
    var v := At(rec, field);
    if v != Absent && !v.Num? then Report(field, NumericRule, fieldLabel) else []
  }

  /** Fails only when the field holds a number below `min`. */
  function ValidateNumberGreaterThanOrEqual<K>(rec: map<K, Value>, field: K, min: real, fieldLabel: Option<string>): (r: Errors<K>)
    ensures |r| <= 1
    ensures r != [] <==> At(rec, field).Num? && At(rec, field).n < min
    ensures forall e :: e in r ==> e.field == field && e.message == Message(AtLeastRule(min), fieldLabel)
  {
    match At(rec, field)
    case Num(n) => if n < min then Report(field, AtLeastRule(min), fieldLabel) else []
    case _ => []
  }

  /** Fails only when the field holds a number above `max`. */
  function ValidateNumberLessThanOrEqual<K>(rec: map<K, Value>, field: K, max: real, fieldLabel: Option<string>): (r: Errors<K>)
    ensures |r| <= 1
    ensures r != [] <==> At(rec, field).Num? && At(rec, field).n > max
    ensures forall e :: e in r ==> e.field == field && e.message == Message(AtMostRule(max), fieldLabel)
  {
    match At(rec, field)
    case Num(n) => if max < n then Report(field, AtMostRule(max), fieldLabel) else []
    case _ => []
  }

  // ---------------------------------------------------------------------
  // Combinators
  // ---------------------------------------------------------------------

  /** The flattening of a list of error lists, keeping order. */
  function MergeErrors<K(!new)>(lists: seq<Errors<K>>): (r: Errors<K>)
    ensures |r| == TotalLength(lists)
  {
    if lists == [] then [] else lists[0] + MergeErrors(lists[1..])
  }

  /** An error is in the merge exactly when it is in one of the lists. */
  lemma {:induction false} MergeErrorsMembers<K(!new)>(lists: seq<Errors<K>>, e: ErrorMessage<K>)
    ensures e in MergeErrors(lists) <==> exists i :: 0 <= i < |lists| && e in lists[i]
  {
    if lists != [] {
      MergeErrorsMembers(lists[1..], e);
      if e in lists[0] {
        assert 0 < |lists| && e in lists[0];
      }
      if exists i :: 0 <= i < |lists| && e in lists[i] {
        var i :| 0 <= i < |lists| && e in lists[i];
        if i > 0 { assert e in lists[1..][i - 1]; }
      }
    }
  }

  /** The number of errors held by a list of error lists. */
  function TotalLength<K>(lists: seq<Errors<K>>): nat
  {
    if lists == [] then 0 else |lists[0]| + TotalLength(lists[1..])
  }

  /** Merging two groups one after the other is merging each and concatenating. */
  lemma {:induction false} MergeErrorsAppend<K(!new)>(a: seq<Errors<K>>, b: seq<Errors<K>>)
    ensures MergeErrors(a + b) == MergeErrors(a) + MergeErrors(b)
  {
    if a == [] {
      assert a + b == b;
    } else {
      assert (a + b)[1..] == a[1..] + b;
      MergeErrorsAppend(a[1..], b);
    }
  }

  lemma MergeErrorsThree<K(!new)>(a: Errors<K>, b: Errors<K>, c: Errors<K>)
    ensures MergeErrors([a, b, c]) == a + b + c
  {
    var l := [a, b, c];
    assert MergeErrors(l[3..]) == [];
    assert MergeErrors(l[2..]) == c;
    assert MergeErrors(l[1..]) == b + c;
  }

  lemma MergeErrorsFive<K(!new)>(a: Errors<K>, b: Errors<K>, c: Errors<K>, d: Errors<K>, e: Errors<K>)
    ensures MergeErrors([a, b, c, d, e]) == a + b + c + d + e
  {
    var l := [a, b, c, d, e];
    assert MergeErrors(l[5..]) == [];
    assert MergeErrors(l[4..]) == e;
    assert MergeErrors(l[3..]) == d + e;
    assert MergeErrors(l[2..]) == c + d + e;
    assert MergeErrors(l[1..]) == b + c + d + e;
  }

  /** The guard of `validateIf`: either a real boolean, or (as the feed
      validator also passes) the error list returned by another rule. */
  datatype Condition<K> = Flag(b: bool) | ErrorList(errs: Errors<K>)

  /** JavaScript truthiness of a guard: an array is always truthy, even empty. */
  predicate Truthy<K>(c: Condition<K>)
  {
    match c
    case Flag(b) => b
    case ErrorList(_) => true
  }

  /** The rule results when the guard is truthy, no results otherwise. The
      result is the list of rule results itself, which callers spread into
      `mergeErrors` or nest as the rules of another `validateIf`. */
  function ValidateIf<K(!new)>(c: Condition<K>, rules: seq<Errors<K>>): (r: seq<Errors<K>>)
    ensures c.ErrorList? ==> r == rules
    ensures Truthy(c) <==> c != Flag(false)
    ensures c == Flag(false) ==> r == []
    ensures c != Flag(false) ==> r == rules
  {
    if Truthy(c) then rules else []
  }

  /** The errors of a list that name the given field, in order. */
  function ErrorsFor<K(==,!new)>(errs: Errors<K>, field: K): (r: Errors<K>)
    ensures |r| <= |errs|
  {
    if errs == [] then []
    else if errs[0].field == field then [errs[0]] + ErrorsFor(errs[1..], field)
    else ErrorsFor(errs[1..], field)
  }

  /** An error is kept exactly when it is in the list and names the field. */
  lemma {:induction false} ErrorsForMembers<K(!new)>(errs: Errors<K>, field: K, e: ErrorMessage<K>)
    ensures e in ErrorsFor(errs, field) <==> e in errs && e.field == field
  {
    if errs != [] {
      ErrorsForMembers(errs[1..], field, e);
      assert errs == [errs[0]] + errs[1..];
    }
  }

  lemma {:induction false} ErrorsForAppend<K(!new)>(a: Errors<K>, b: Errors<K>, field: K)
    ensures ErrorsFor(a + b, field) == ErrorsFor(a, field) + ErrorsFor(b, field)
  {
    if a == [] {
      assert a + b == b;
    } else {
      assert (a + b)[1..] == a[1..] + b;
      ErrorsForAppend(a[1..], b, field);
    }
  }

  /** Every error of the list names the given field. */
  ghost predicate Tagged<K(!new)>(errs: Errors<K>, field: K)
  {
    forall e :: e in errs ==> e.field == field
  }

  lemma {:induction false} ErrorsForTagged<K(!new)>(errs: Errors<K>, field: K, other: K)
    requires Tagged(errs, field)
    ensures ErrorsFor(errs, other) == if field == other then errs else []
  {
    if errs != [] {
      ErrorsForTagged(errs[1..], field, other);
    }
  }

  /** Merging results that each name their own distinct field keeps, for any
      one field, exactly the result that names it. */
  lemma {:induction false} ErrorsForMerge<K(!new)>(parts: seq<Errors<K>>, tags: seq<K>, field: K)
    requires |parts| == |tags|
    requires forall i :: 0 <= i < |parts| ==> Tagged(parts[i], tags[i])
    requires forall i, j :: 0 <= i < j < |tags| ==> tags[i] != tags[j]
    ensures field !in tags ==> ErrorsFor(MergeErrors(parts), field) == []
    ensures forall i :: 0 <= i < |tags| && tags[i] == field ==> ErrorsFor(MergeErrors(parts), field) == parts[i]
  {
    if parts != [] {
      ErrorsForAppend(parts[0], MergeErrors(parts[1..]), field);
      ErrorsForTagged(parts[0], tags[0], field);
      ErrorsForMerge(parts[1..], tags[1..], field);
      if tags[0] == field {
        assert field !in tags[1..] by {
          forall j | 0 <= j < |tags[1..]| ensures tags[1..][j] != field {
            assert tags[1..][j] == tags[j + 1];
          }
        }
      } else {
        forall i | 0 <= i < |tags| && tags[i] == field
          ensures ErrorsFor(MergeErrors(parts), field) == parts[i]
        {
          assert tags[1..][i - 1] == field;
        }
      }
    }
  }
}
