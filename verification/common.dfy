/** Option, used for values the source may leave out. */
module Wrappers {

  datatype Option<+T> = None | Some(value: T)
}

/**
 * The user-visible effects the pages emit through the toast hook. Toasts are
 * external I/O in the application; the model records them in order so that a
 * contract can say which toast an operation raised.
 */
module Effects {

  datatype Variant = Standard | Destructive

  datatype Toast = Toast(variant: Variant, title: string, description: string)
}

/**
 * How a zod object schema reports a failed parse: one issue per failing
 * field, carrying that field's message, in the order the schema declares its
 * fields.
 */
module Validation {

  /** The messages are pairwise different, so a message names its field. */
  predicate Distinct(fields: seq<string>) {
    forall i, j :: 0 <= i < j < |fields| ==> fields[i] != fields[j]
  }

  /** The position of the first occurrence of `m` in `fields`, or `|fields|` when there is none. */
  function IndexOf(fields: seq<string>, m: string): (k: nat)
    ensures k <= |fields|
    ensures k < |fields| <==> m in fields
    ensures k < |fields| ==> fields[k] == m
  {
    if fields == [] then 0 else if fields[0] == m then 0 else 1 + IndexOf(fields[1..], m)
  }

  /** Every message is one of the fields' messages, and they come in strictly increasing field order. */
  predicate InFieldOrder(messages: seq<string>, fields: seq<string>) {
    (forall i :: 0 <= i < |messages| ==> messages[i] in fields)
    && forall i, j :: 0 <= i < j < |messages| ==> IndexOf(fields, messages[i]) < IndexOf(fields, messages[j])
  }

  /** The messages of the fields flagged as failing, field by field. */
  function Report(fields: seq<string>, failing: seq<bool>): seq<string>
    requires |failing| == |fields|
  {
    if fields == [] then []
    else (if failing[0] then [fields[0]] else []) + Report(fields[1..], failing[1..])
  }

  /**
   * The report holds exactly the failing fields' messages, each once and in
   * field order; it is empty exactly when no field fails.
   */
  lemma {:induction false} ReportExact(fields: seq<string>, failing: seq<bool>)
    requires |failing| == |fields| && Distinct(fields)
    ensures InFieldOrder(Report(fields, failing), fields)
    ensures forall k :: 0 <= k < |fields| ==> (fields[k] in Report(fields, failing) <==> failing[k])
    ensures Report(fields, failing) == [] <==> forall k :: 0 <= k < |fields| ==> !failing[k]
    decreases |fields|
  {
    if fields != [] {
      var rest := Report(fields[1..], failing[1..]);
      var head := if failing[0] then [fields[0]] else [];
      ReportExact(fields[1..], failing[1..]);
      assert Report(fields, failing) == head + rest;
      forall x | x in rest
        ensures IndexOf(fields, x) == 1 + IndexOf(fields[1..], x) && x != fields[0]
      {
      }
      forall k | 0 <= k < |fields|
        ensures fields[k] in Report(fields, failing) <==> failing[k]
      {
        if k > 0 {
          assert fields[k] == fields[1..][k - 1];
          assert fields[k] != fields[0];
        }
      }
      if Report(fields, failing) == [] {
        forall k | 0 <= k < |fields| ensures !failing[k] {
          if k > 0 {
            assert failing[k] == failing[1..][k - 1];
            assert fields[k] == fields[1..][k - 1];
          }
        }
      }
    }
  }

  /** When every field fails, the report is every field's message in order. */
  lemma {:induction false} ReportAll(fields: seq<string>, failing: seq<bool>)
    requires |failing| == |fields| && forall k :: 0 <= k < |failing| ==> failing[k]
    ensures Report(fields, failing) == fields
    decreases |fields|
  {
    if fields != [] {
      ReportAll(fields[1..], failing[1..]);
      assert fields == [fields[0]] + fields[1..];
    }
  }

  /** Messages in strictly increasing field order are no more than the fields. */
  lemma InFieldOrderLength(messages: seq<string>, fields: seq<string>)
    requires InFieldOrder(messages, fields)
    ensures |messages| <= |fields|
  {
    if |messages| > 0 {
      var last := |messages| - 1;
      IndexAtLeastPosition(messages, fields, last);
    }
  }

  /** The `i`-th message in field order belongs to field `i` or a later one. */
  lemma {:induction false} IndexAtLeastPosition(messages: seq<string>, fields: seq<string>, i: nat)
    requires InFieldOrder(messages, fields) && i < |messages|
    ensures i <= IndexOf(fields, messages[i]) < |fields|
  {
    if i > 0 {
      IndexAtLeastPosition(messages, fields, i - 1);
    }
  }
}
