/** The helpers of `number4.py`, each written once as a named function and once
    as a lambda: a percentage with a zero guard, a positivity test and a
    dictionary lookup with a `None` default (the lambda version curried), plus
    the two filters the demonstration builds from them. Python numbers are
    modelled as reals, without IEEE rounding. */
module LambdaHelpers {

  /** A value stored in a financial record: `None`, a string or a number. */
  datatype Field = NoneField | Text(s: string) | Number(x: real)

  /** A financial record: a dictionary from field names to values. */
  type Record = map<string, Field>

  /** Python truthiness of a field value. */
  predicate Truthy(f: Field) {
    match f
    case NoneField => false
    case Text(s) => s != ""
    case Number(x) => x != 0.0
  }

  /** `calculate_percentage(part, whole)`: `part` as a percentage of `whole`,
      and 0 when `whole` is 0. */
  function CalculatePercentage(part: real, whole: real): (r: real)
    ensures whole != 0.0 ==> r * whole == part * 100.0
    ensures whole == 0.0 ==> r == 0.0
  {
    if whole != 0.0 then (part / whole) * 100.0 else 0.0
  }

  /** `calculate_percentage_lambda`. */
  const CalculatePercentageLambda: (real, real) -> real :=
    (part, whole) => if whole != 0.0 then (part / whole) * 100.0 else 0.0

  lemma PercentageLambdaAgrees(part: real, whole: real)
    ensures CalculatePercentageLambda(part, whole) == CalculatePercentage(part, whole)
  {
  }

  /** `validate_positive_number`: agrees with its lambda form. */
  function ValidatePositiveNumber(number: real): (r: bool)
    ensures r == ValidatePositiveLambda(number)
  {
    number > 0.0
  }

  /** `validate_positive_lambda`. */
  const ValidatePositiveLambda: real -> bool := number => number > 0.0

  /** `extract_field(record, field_name)`: `record.get(field_name, None)`. */
  function ExtractField(record: Record, fieldName: string): (r: Field)
    ensures fieldName in record ==> r == record[fieldName]
    ensures fieldName !in record ==> r == NoneField
  {
    if fieldName in record then record[fieldName] else NoneField
  }

  /** `extract_field_lambda`, curried: the field name first, then the record. */
  const ExtractFieldLambda: string -> Record -> Field :=
    fieldName => record => if fieldName in record then record[fieldName] else NoneField

  lemma ExtractFieldLambdaAgrees(record: Record, fieldName: string)
    ensures ExtractFieldLambda(fieldName)(record) == ExtractField(record, fieldName)
  {
  }

  /** `r` is `xs` with some elements removed, the rest in their original order. */
  predicate IsSubsequence<T(==)>(r: seq<T>, xs: seq<T>)
    decreases |xs|
  {
    if r == [] then true
    else if xs == [] then false
    else (r[0] == xs[0] && IsSubsequence(r[1..], xs[1..])) || IsSubsequence(r, xs[1..])
  }

  /** `list(filter(p, xs))`, and equally `[x for x in xs if p(x)]`: keeps
      exactly the elements that satisfy `p`, each as often as it occurs. */
  function Filter<T(==,!new)>(p: T -> bool, xs: seq<T>): (r: seq<T>)
    ensures forall x :: multiset(r)[x] == if p(x) then multiset(xs)[x] else 0
  {
    if xs == [] then []
    else
      var head := if p(xs[0]) then [xs[0]] else [];
      var rest := Filter(p, xs[1..]);
      assert xs == [xs[0]] + xs[1..];
      assert multiset(xs) == multiset{xs[0]} + multiset(xs[1..]);
      assert multiset(head + rest) == multiset(head) + multiset(rest);
      head + rest
  }

  /** Filtering a non-empty sequence decides on its head, then filters the rest. */
  lemma FilterCons<T(!new)>(p: T -> bool, x: T, xs: seq<T>)
    ensures Filter(p, [x] + xs) == (if p(x) then [x] else []) + Filter(p, xs)
  {
    assert ([x] + xs)[1..] == xs;
  }

  /** The filter keeps the surviving elements in their original order. */
  lemma {:induction false} FilterKeepsOrder<T(!new)>(p: T -> bool, xs: seq<T>)
    ensures IsSubsequence(Filter(p, xs), xs)
  {
    if xs != [] {
      FilterKeepsOrder(p, xs[1..]);
      var rest := Filter(p, xs[1..]);
      if p(xs[0]) {
        assert Filter(p, xs) == [xs[0]] + rest;
        assert ([xs[0]] + rest)[1..] == rest;
      } else {
        assert Filter(p, xs) == rest;
        SubsequenceOfTail(rest, xs);
      }
    }
  }

  /** An element survives the filter exactly when it occurs and satisfies `p`. */
  lemma FilterMembers<T(!new)>(p: T -> bool, xs: seq<T>)
    ensures forall x :: x in Filter(p, xs) <==> x in xs && p(x)
  {
    forall x
      ensures x in Filter(p, xs) <==> x in xs && p(x)
    {
      assert x in Filter(p, xs) <==> multiset(Filter(p, xs))[x] > 0;
    }
  }

  /** A subsequence of the tail is a subsequence of the whole. */
  lemma SubsequenceOfTail<T>(r: seq<T>, xs: seq<T>)
    requires xs != [] && IsSubsequence(r, xs[1..])
    ensures IsSubsequence(r, xs)
  {
  }

  /** The portfolio filter `[v for v in values if validate_positive_lambda(v)]`:
      keeps every positive value and nothing else, in input order. */
  function PositiveValues(values: seq<real>): (r: seq<real>)
    ensures forall x :: x in r <==> x in values && x > 0.0
    ensures IsSubsequence(r, values)
  {
    FilterMembers(ValidatePositiveLambda, values);
    FilterKeepsOrder(ValidatePositiveLambda, values);
    Filter(ValidatePositiveLambda, values)
  }

  /** The demonstration portfolio keeps 5000, 10000 and 7500, in that order. */
  lemma PositiveValuesDemonstration()
    ensures PositiveValues([5000.0, -2500.0, 10000.0, 7500.0, 0.0]) == [5000.0, 10000.0, 7500.0]
  {
    var f := ValidatePositiveLambda;
    FilterCons(f, 0.0, []);
    FilterCons(f, 7500.0, [0.0]);
    FilterCons(f, 10000.0, [7500.0, 0.0]);
    FilterCons(f, -2500.0, [10000.0, 7500.0, 0.0]);
    FilterCons(f, 5000.0, [-2500.0, 10000.0, 7500.0, 0.0]);
  }

  /** `all(extract_field_lambda(f)(record) for f in required_fields)`. */
  predicate HasRequiredFields(record: Record, requiredFields: seq<string>) {
    forall i :: 0 <= i < |requiredFields| ==> Truthy(ExtractFieldLambda(requiredFields[i])(record))
  }

  /** A record passes exactly when every required field is present and truthy. */
  lemma RequiredFieldsMeaning(record: Record, requiredFields: seq<string>)
    ensures HasRequiredFields(record, requiredFields)
        <==> forall i :: 0 <= i < |requiredFields| ==>
               requiredFields[i] in record && Truthy(record[requiredFields[i]])
  {
  }

  /** The record filter of the demonstration: keeps exactly the records
      with every required field, in input order. */
  function ValidRecords(records: seq<Record>, requiredFields: seq<string>): (r: seq<Record>)
    ensures forall record :: record in r <==> record in records && HasRequiredFields(record, requiredFields)
    ensures IsSubsequence(r, records)
  {
    var p := (record: Record) => HasRequiredFields(record, requiredFields);
    FilterMembers(p, records);
    FilterKeepsOrder(p, records);
    Filter(p, records)
  }
}
