/** The exporter's error values: its five sentinels, the ways the converter wraps
    them, and errors raised by code outside the model, which are only carried. */
module Errors {
  import opened Results

  /** The sentinel errors the transform package declares. */
  datatype Sentinel =
    | ErrUnimplementedAgg
    | ErrIncompatibleAgg
    | ErrUnknownValueType
    | ErrContextCanceled
    | ErrTransforming

  function SentinelText(s: Sentinel): string
  {
    match s
    case ErrUnimplementedAgg => "unimplemented aggregator"
    case ErrIncompatibleAgg => "incompatible aggregation type"
    case ErrUnknownValueType => "invalid value type"
    case ErrContextCanceled => "context canceled"
    case ErrTransforming => "transforming failed"
  }

  /** An error as the converter, the sink or a collaborator produces it. The string
      carried by a wrapped sentinel is what the `%T` or `%v` verb printed (the Go
      type of the aggregation, the name of the number kind). */
  datatype Error =
    | Unimplemented(aggregationType: string)
    | Incompatible(aggregationType: string)
    | UnknownValueType(numberKind: string)
    | ContextCanceled
    | Transforming
    | TransformingFailures(failures: seq<string>)
    | External(message: string)

  type Fallible<+T> = Result<T, Error>

  /** `errors.Is(e, s)`. An error raised outside the exporter is taken to wrap none
      of the exporter's sentinels. */
  predicate Is(e: Error, s: Sentinel)
  {
    match e
    case Unimplemented(_) => s == ErrUnimplementedAgg
    case Incompatible(_) => s == ErrIncompatibleAgg
    case UnknownValueType(_) => s == ErrUnknownValueType
    case ContextCanceled => s == ErrContextCanceled
    case Transforming => s == ErrTransforming
    case TransformingFailures(_) => s == ErrTransforming
    case External(_) => false
  }

  /** `strings.Join`. */
  function Join(parts: seq<string>, sep: string): string
  {
    if |parts| == 0 then ""
    else if |parts| == 1 then parts[0]
    else parts[0] + sep + Join(parts[1..], sep)
  }

  /** The `n` characters of `text` from position `k`. */
  function Window(text: string, k: nat, n: nat): string
    requires k + n <= |text|
  {
    text[k..k + n]
  }

  /** `part` appears somewhere in `text`. */
  predicate Occurs(part: string, text: string)
  {
    exists k: nat | k + |part| <= |text| :: Window(text, k, |part|) == part
  }

  lemma OccursAtStart(part: string, rest: string)
    ensures Occurs(part, part + rest)
  {
    assert Window(part + rest, 0, |part|) == part;
  }

  lemma OccursAfter(part: string, pre: string, text: string)
    requires Occurs(part, text)
    ensures Occurs(part, pre + text)
  {
    var k: nat :| k + |part| <= |text| && Window(text, k, |part|) == part;
    assert Window(pre + text, |pre| + k, |part|) == Window(text, k, |part|);
  }

  /** Joining keeps every part: each one appears in the joined text. */
  lemma {:induction false} JoinKeepsParts(parts: seq<string>, sep: string, i: nat)
    requires i < |parts|
    ensures Occurs(parts[i], Join(parts, sep))
    decreases |parts|
  {
    if |parts| == 1 {
      OccursAtStart(parts[0], "");
      assert parts[0] + "" == parts[0];
    } else if i == 0 {
      OccursAtStart(parts[0], sep + Join(parts[1..], sep));
      assert Join(parts, sep) == parts[0] + (sep + Join(parts[1..], sep));
    } else {
      JoinKeepsParts(parts[1..], sep, i - 1);
      OccursAfter(parts[i], parts[0] + sep, Join(parts[1..], sep));
    }
  }

  /** `e.Error()`: a wrapping error's text starts with the text of the sentinel it
      wraps, and a sentinel returned bare prints as exactly its own text. */
  function Message(e: Error): (r: string)
    ensures forall s :: Is(e, s) ==> SentinelText(s) <= r
    ensures e == ContextCanceled ==> r == SentinelText(ErrContextCanceled)
    ensures e == Transforming ==> r == SentinelText(ErrTransforming)
    ensures e.External? ==> r == e.message
  {
    match e
    case Unimplemented(t) => SentinelText(ErrUnimplementedAgg) + ": " + t
    case Incompatible(t) => SentinelText(ErrIncompatibleAgg) + ": " + t
    case UnknownValueType(k) => SentinelText(ErrUnknownValueType) + ": " + k
    case ContextCanceled => SentinelText(ErrContextCanceled)
    case Transforming => SentinelText(ErrTransforming)
    case TransformingFailures(fs) => SentinelText(ErrTransforming) + ":\n -" + Join(fs, "\n -")
    case External(m) => m
  }
}
