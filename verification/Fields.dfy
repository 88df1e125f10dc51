/** The flat hash encoding of an instance: text fields, decimal numbers and JSON. */
module Fields {
  import opened Values
  import opened Records
  import opened Text

  datatype Field =
    | IdField | QueueNameField | JobNameField | OriginalJobIdField | StatusField | FailedStepField
    | RunCountField | StepSeqField | CreatedAtField | UpdatedAtField | CompletedAtField | FailedAtField
    | InputField | OutputField | ErrorField | FailureErrorField | CompensationField | ResumeSeqField

  type Hash = map<Field, string>

  type Pairs = seq<(Field, string)>

  /** JSON text of the structured fields. Decoding may fail. */
  datatype Json = Json(
    printValue: Value -> string, readValue: string -> Option<Value>,
    printErr: Err -> string, readErr: string -> Option<Err>,
    printReport: Report -> string, readReport: string -> Option<Report>)
  {
    /** Reading what was printed gives it back, up to the JSON round trip of a payload. */
    ghost predicate Inverse() {
      && (forall v: Value :: !v.Undefined? ==> readValue(printValue(v)) == Some(Clone(v)))
      && (forall e :: readErr(printErr(e)) == Some(e))
      && (forall r :: readReport(printReport(r)) == Some(r))
    }
  }

  datatype Parsed<+T> = Parsed(value: T) | Corrupted(field: Field) {
    predicate IsFailure() {
      Corrupted?
    }

    function PropagateFailure<U>(): Parsed<U>
      requires Corrupted?
    {
      Corrupted(field)
    }

    function Extract(): T
      requires Parsed?
    {
      value
    }
  }

  function StatusName(status: Status): string {
    match status
    case Running => "running"
    case Yielded => "yielded"
    case Compensating => "compensating"
    case Completed => "completed"
    case Failed => "failed"
    case CompensationFailed => "compensation_failed"
    case Cancelled => "cancelled"
  }

  function StatusNamed(name: string): Option<Status> {
    if name == "running" then Some(Running)
    else if name == "yielded" then Some(Yielded)
    else if name == "compensating" then Some(Compensating)
    else if name == "completed" then Some(Completed)
    else if name == "failed" then Some(Failed)
    else if name == "compensation_failed" then Some(CompensationFailed)
    else if name == "cancelled" then Some(Cancelled)
    else None
  }

  lemma StatusNames(status: Status)
    ensures StatusNamed(StatusName(status)) == Some(status)
  {
    // The names differ in length or in a letter.
    assert StatusName(status)[0] in "rycf";
  }

  // -- Writing ---------------------------------------------------------------------

  function Number(n: Option<nat>): Option<string> {
    if n.Some? then Some(Decimal(n.value)) else None
  }

  /** What a patch writes into a field, if it writes it at all. */
  function TextOf(j: Json, p: Patch, f: Field): Option<string> {
    match f
    case IdField => p.id
    case QueueNameField => p.queueName
    case JobNameField => p.jobName
    case OriginalJobIdField => p.originalJobId
    case StatusField => if p.status.Some? then Some(StatusName(p.status.value)) else None
    case FailedStepField => p.failedStep
    case RunCountField => Number(p.runCount)
    case StepSeqField => Number(p.stepSeq)
    case CreatedAtField => Number(p.createdAt)
    case UpdatedAtField => Number(p.updatedAt)
    case CompletedAtField => Number(p.completedAt)
    case FailedAtField => Number(p.failedAt)
    case InputField => if p.input.Undefined? then None else Some(j.printValue(p.input))
    case OutputField => if p.output.Undefined? then None else Some(j.printValue(p.output))
    case ErrorField => if p.error.Some? then Some(j.printErr(p.error.value)) else None
    case FailureErrorField => if p.failureError.Some? then Some(j.printErr(p.failureError.value)) else None
    case CompensationField => if p.compensation.Some? then Some(j.printReport(p.compensation.value)) else None
    case ResumeSeqField => None
  }

  function Push(out: Pairs, f: Field, text: Option<string>): Pairs {
    if text.Some? then out + [(f, text.value)] else out
  }

  /** `out` holds the texts of the fields in `written`, and no others. */
  ghost predicate Holds(j: Json, p: Patch, out: Pairs, written: set<Field>) {
    forall f, text :: (f, text) in out <==> f in written && TextOf(j, p, f) == Some(text)
  }

  lemma PushHolds(j: Json, p: Patch, out: Pairs, written: set<Field>, f: Field)
    requires Holds(j, p, out, written)
    ensures Holds(j, p, Push(out, f, TextOf(j, p, f)), written + {f})
  {
    hide TextOf;
  }

  /** Flatten the defined fields of a patch into HSET argument pairs. */
  method EncodeInstanceFields(j: Json, p: Patch) returns (out: Pairs)
    ensures forall f, text :: (f, text) in out <==> TextOf(j, p, f) == Some(text)
  {
    hide Holds, Number;
    out := [];
    ghost var written: set<Field> := {};
    assert Holds(j, p, out, written) by {
      NothingHeld(j, p);
    }
    var fields := [
      IdField, QueueNameField, JobNameField, OriginalJobIdField, StatusField, FailedStepField, RunCountField,
      StepSeqField,
      CreatedAtField, UpdatedAtField, CompletedAtField, FailedAtField, InputField, OutputField, ErrorField,
      FailureErrorField, CompensationField];
    for i := 0 to |fields|
      invariant Holds(j, p, out, written) && written == set f | f in fields[..i]
    {
      PushHolds(j, p, out, written, fields[i]);
      out := Push(out, fields[i], TextOf(j, p, fields[i]));
      written := written + {fields[i]};
      assert fields[..i + 1] == fields[..i] + [fields[i]];
    }
    assert fields[..|fields|] == fields;
    AllHeld(j, p, out, written);
  }

  lemma NothingHeld(j: Json, p: Patch)
    ensures Holds(j, p, [], {})
  {
  }

  lemma AllHeld(j: Json, p: Patch, out: Pairs, written: set<Field>)
    requires Holds(j, p, out, written)
    requires forall f: Field :: f in written || f == ResumeSeqField
    ensures forall f, text :: (f, text) in out <==> TextOf(j, p, f) == Some(text)
  {
    assert TextOf(j, p, ResumeSeqField) == None;
    hide TextOf;
  }

  /** The HSET command. */
  function HSet(hash: Hash, pairs: Pairs): Hash
    decreases |pairs|
  {
    if pairs == [] then hash else HSet(hash[pairs[0].0 := pairs[0].1], pairs[1..])
  }

  function Get(hash: Hash, f: Field): Option<string> {
    if f in hash then Some(hash[f]) else None
  }

  lemma {:induction false} HSetGets(hash: Hash, pairs: Pairs, f: Field, text: Option<string>)
    requires forall t :: (f, t) in pairs ==> text == Some(t)
    ensures Get(HSet(hash, pairs), f) == if exists t :: (f, t) in pairs then text else Get(hash, f)
    decreases |pairs|
  {
    if pairs != [] {
      var first, rest := pairs[0], pairs[1..];
      var next := hash[first.0 := first.1];
      assert forall t :: (f, t) in pairs <==> (f, t) == first || (f, t) in rest;
      HSetGets(next, rest, f, text);
      if first.0 == f {
        assert first == (f, first.1);
      }
    }
  }

  // -- Reading ---------------------------------------------------------------------

  function ToInt(text: Option<string>): Option<nat> {
    if text.None? then None else ParseInt(text.value)
  }

  function ReadField<T>(hash: Hash, f: Field, read: string -> Option<T>): Parsed<Option<T>> {
    if f !in hash then Parsed(None)
    else
      var v := read(hash[f]);
      if v.None? then Corrupted(f) else Parsed(v)
  }

  /** Rebuild an instance from its hash; a JSON field that does not parse is reported by name. */
  function ParseInstance(j: Json, hash: Hash): Parsed<Instance> {
    var status :- if StatusField in hash then ReadField(hash, StatusField, StatusNamed) else Parsed(Some(Running));
    var input :- ReadField(hash, InputField, j.readValue);
    var output :- ReadField(hash, OutputField, j.readValue);
    var error :- ReadField(hash, ErrorField, j.readErr);
    var failureError :- ReadField(hash, FailureErrorField, j.readErr);
    var compensation :- ReadField(hash, CompensationField, j.readReport);
    Parsed(Instance(
      Get(hash, IdField).GetOr(""), Get(hash, QueueNameField).GetOr(""), Get(hash, JobNameField).GetOr(""),
      Get(hash, OriginalJobIdField).GetOr(""), status.GetOr(Running),
      input.GetOr(Undefined), output.GetOr(Undefined),
      error, failureError, Get(hash, FailedStepField), compensation,
      ToInt(Get(hash, RunCountField)).GetOr(0), ToInt(Get(hash, ResumeSeqField)), ToInt(Get(hash, StepSeqField)),
      ToInt(Get(hash, CreatedAtField)).GetOr(0), ToInt(Get(hash, UpdatedAtField)).GetOr(0),
      ToInt(Get(hash, CompletedAtField)), ToInt(Get(hash, FailedAtField))))
  }

  // -- Both ways -------------------------------------------------------------------

  /** Each field of `after` is what the patch writes, or else what `before` had. */
  ghost predicate Patched(j: Json, p: Patch, before: Hash, after: Hash) {
    forall f :: Get(after, f) == TextOf(j, p, f).OrElse(Get(before, f))
  }

  lemma WritingPatches(j: Json, p: Patch, hash: Hash, pairs: Pairs)
    requires forall f, text :: (f, text) in pairs <==> TextOf(j, p, f) == Some(text)
    ensures Patched(j, p, hash, HSet(hash, pairs))
  {
    hide TextOf;
    forall f ensures Get(HSet(hash, pairs), f) == TextOf(j, p, f).OrElse(Get(hash, f)) {
      HSetGets(hash, pairs, f, TextOf(j, p, f));
      if TextOf(j, p, f).Some? {
        assert (f, TextOf(j, p, f).value) in pairs;
      }
    }
  }

  lemma NumberReads(n: Option<nat>)
    ensures ToInt(Number(n)) == n
  {
    if n.Some? {
      ParsePrinted(n.value);
    }
  }

  lemma ReadPatched<T>(before: Hash, after: Hash, f: Field, text: Option<string>, read: string -> Option<T>)
    requires Get(after, f) == text.OrElse(Get(before, f))
    requires text.Some? ==> read(text.value).Some?
    requires ReadField(before, f, read).Parsed?
    ensures ReadField(after, f, read) ==
            Parsed(if text.Some? then read(text.value) else ReadField(before, f, read).value)
  {
  }

  lemma IntPatched(before: Hash, after: Hash, f: Field, n: Option<nat>)
    requires Get(after, f) == Number(n).OrElse(Get(before, f))
    ensures ToInt(Get(after, f)) == n.OrElse(ToInt(Get(before, f)))
  {
    NumberReads(n);
  }

  /** The hash reads in full. */
  lemma ReadsAll(j: Json, hash: Hash)
    requires ParseInstance(j, hash).Parsed?
    ensures ReadField(hash, StatusField, StatusNamed).Parsed?
    ensures ReadField(hash, InputField, j.readValue).Parsed? && ReadField(hash, OutputField, j.readValue).Parsed?
    ensures ReadField(hash, ErrorField, j.readErr).Parsed? && ReadField(hash, FailureErrorField, j.readErr).Parsed?
    ensures ReadField(hash, CompensationField, j.readReport).Parsed?
  {
  }

  function Cloned(p: Patch): Patch {
    p.(input := Clone(p.input), output := Clone(p.output))
  }

  /**
   * Writing an encoded patch into a readable hash and reading it back is merging the patch's defined
   * fields into the instance that was there.
   */
  lemma PatchMerges(j: Json, p: Patch, before: Hash, after: Hash)
    requires j.Inverse() && ParseInstance(j, before).Parsed? && Patched(j, p, before, after)
    ensures ParseInstance(j, after) == Parsed(Merge(ParseInstance(j, before).value, Cloned(p)))
  {
    ReadsAll(j, before);
    TextPatched(j, p, before, after);
    JsonPatched(j, p, before, after);
    NumbersPatched(j, p, before, after);
    hide Patched, TextOf, ReadField, ToInt, Json.Inverse, Get;
  }

  lemma TextPatched(j: Json, p: Patch, before: Hash, after: Hash)
    requires Patched(j, p, before, after) && ReadField(before, StatusField, StatusNamed).Parsed?
    ensures Get(after, IdField) == p.id.OrElse(Get(before, IdField))
    ensures Get(after, QueueNameField) == p.queueName.OrElse(Get(before, QueueNameField))
    ensures Get(after, JobNameField) == p.jobName.OrElse(Get(before, JobNameField))
    ensures Get(after, OriginalJobIdField) == p.originalJobId.OrElse(Get(before, OriginalJobIdField))
    ensures Get(after, FailedStepField) == p.failedStep.OrElse(Get(before, FailedStepField))
    ensures StatusField in after <==> p.status.Some? || StatusField in before
    ensures ReadField(after, StatusField, StatusNamed)
            == Parsed(p.status.OrElse(ReadField(before, StatusField, StatusNamed).value))
  {
    hide StatusNamed, StatusName;
    assert Get(after, StatusField) == TextOf(j, p, StatusField).OrElse(Get(before, StatusField));
    if p.status.Some? {
      StatusNames(p.status.value);
    }
    ReadPatched(before, after, StatusField, TextOf(j, p, StatusField), StatusNamed);
  }

  lemma ValuePatched(j: Json, p: Patch, before: Hash, after: Hash, f: Field, v: Value)
    requires j.Inverse() && Patched(j, p, before, after) && ReadField(before, f, j.readValue).Parsed?
    requires TextOf(j, p, f) == if v.Undefined? then None else Some(j.printValue(v))
    ensures ReadField(after, f, j.readValue).Parsed?
    ensures ReadField(after, f, j.readValue).value.GetOr(Undefined)
            == Present(Clone(v), ReadField(before, f, j.readValue).value.GetOr(Undefined))
  {
    hide ReadField, Get, Clone, TextOf;
    CloneKeepsPresence(v);
    ReadPatched(before, after, f, TextOf(j, p, f), j.readValue);
  }

  lemma ErrPatched(j: Json, p: Patch, before: Hash, after: Hash, f: Field, e: Option<Err>)
    requires j.Inverse() && Patched(j, p, before, after) && ReadField(before, f, j.readErr).Parsed?
    requires TextOf(j, p, f) == if e.Some? then Some(j.printErr(e.value)) else None
    ensures ReadField(after, f, j.readErr) == Parsed(e.OrElse(ReadField(before, f, j.readErr).value))
  {
    hide ReadField, Get, TextOf;
    ReadPatched(before, after, f, TextOf(j, p, f), j.readErr);
  }

  lemma ReportPatched(j: Json, p: Patch, before: Hash, after: Hash)
    requires j.Inverse() && Patched(j, p, before, after) && ReadField(before, CompensationField, j.readReport).Parsed?
    ensures ReadField(after, CompensationField, j.readReport)
            == Parsed(p.compensation.OrElse(ReadField(before, CompensationField, j.readReport).value))
  {
    hide ReadField, Get;
    ReadPatched(before, after, CompensationField, TextOf(j, p, CompensationField), j.readReport);
  }

  lemma JsonPatched(j: Json, p: Patch, before: Hash, after: Hash)
    requires j.Inverse() && Patched(j, p, before, after)
    requires ReadField(before, InputField, j.readValue).Parsed? && ReadField(before, OutputField, j.readValue).Parsed?
    requires ReadField(before, ErrorField, j.readErr).Parsed? && ReadField(before, FailureErrorField, j.readErr).Parsed?
    requires ReadField(before, CompensationField, j.readReport).Parsed?
    ensures ReadField(after, InputField, j.readValue).Parsed? && ReadField(after, OutputField, j.readValue).Parsed?
    ensures ReadField(after, InputField, j.readValue).value.GetOr(Undefined)
            == Present(Clone(p.input), ReadField(before, InputField, j.readValue).value.GetOr(Undefined))
    ensures ReadField(after, OutputField, j.readValue).value.GetOr(Undefined)
            == Present(Clone(p.output), ReadField(before, OutputField, j.readValue).value.GetOr(Undefined))
    ensures ReadField(after, ErrorField, j.readErr)
            == Parsed(p.error.OrElse(ReadField(before, ErrorField, j.readErr).value))
    ensures ReadField(after, FailureErrorField, j.readErr)
            == Parsed(p.failureError.OrElse(ReadField(before, FailureErrorField, j.readErr).value))
    ensures ReadField(after, CompensationField, j.readReport)
            == Parsed(p.compensation.OrElse(ReadField(before, CompensationField, j.readReport).value))
  {
    hide ReadField, Get, Clone, Patched, Json.Inverse;
    ValuePatched(j, p, before, after, InputField, p.input);
    ValuePatched(j, p, before, after, OutputField, p.output);
    ErrPatched(j, p, before, after, ErrorField, p.error);
    ErrPatched(j, p, before, after, FailureErrorField, p.failureError);
    ReportPatched(j, p, before, after);
  }

  lemma NumbersPatched(j: Json, p: Patch, before: Hash, after: Hash)
    requires Patched(j, p, before, after)
    ensures ToInt(Get(after, RunCountField)) == p.runCount.OrElse(ToInt(Get(before, RunCountField)))
    ensures ToInt(Get(after, StepSeqField)) == p.stepSeq.OrElse(ToInt(Get(before, StepSeqField)))
    ensures ToInt(Get(after, CreatedAtField)) == p.createdAt.OrElse(ToInt(Get(before, CreatedAtField)))
    ensures ToInt(Get(after, UpdatedAtField)) == p.updatedAt.OrElse(ToInt(Get(before, UpdatedAtField)))
    ensures ToInt(Get(after, CompletedAtField)) == p.completedAt.OrElse(ToInt(Get(before, CompletedAtField)))
    ensures ToInt(Get(after, FailedAtField)) == p.failedAt.OrElse(ToInt(Get(before, FailedAtField)))
    ensures Get(after, ResumeSeqField) == Get(before, ResumeSeqField)
  {
    hide Number, ToInt, Get;
    IntPatched(before, after, RunCountField, p.runCount);
    IntPatched(before, after, StepSeqField, p.stepSeq);
    IntPatched(before, after, CreatedAtField, p.createdAt);
    IntPatched(before, after, UpdatedAtField, p.updatedAt);
    IntPatched(before, after, CompletedAtField, p.completedAt);
    IntPatched(before, after, FailedAtField, p.failedAt);
    assert Get(after, ResumeSeqField) == TextOf(j, p, ResumeSeqField).OrElse(Get(before, ResumeSeqField));
  }

  /** The whole of an instance as a patch. The 0.1.x counter has no place in it. */
  function Whole(i: Instance): Patch {
    Patch(Some(i.id), Some(i.queueName), Some(i.jobName), Some(i.originalJobId), Some(i.status), i.input, i.output,
          i.error, i.failureError, i.failedStep, i.compensation, Some(i.runCount), i.stepSeq,
          Some(i.createdAt), Some(i.updatedAt), i.completedAt, i.failedAt)
  }

  /**
   * Round trip: writing an instance and reading it back gives it back if and only if it does not carry
   * the 0.1.x counter, for payloads that have been through JSON before.
   */
  lemma InstanceRoundTrip(j: Json, i: Instance, pairs: Pairs)
    requires j.Inverse() && Clone(i.input) == i.input && Clone(i.output) == i.output
    requires forall f, text :: (f, text) in pairs <==> TextOf(j, Whole(i), f) == Some(text)
    ensures ParseInstance(j, HSet(map[], pairs)) == Parsed(i) <==> i.resumeSeq.None?
  {
    hide TextOf, Clone, Json.Inverse;
    WritingPatches(j, Whole(i), map[], pairs);
    PatchMerges(j, Whole(i), map[], HSet(map[], pairs));
  }
}
