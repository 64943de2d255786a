/**
 * The progress sink shared by all pipeline steps. Each notification is
 * appended to an event log, in the order it was sent.
 */
module Postprocess {

  /** The step name under which transcription reports. */
  const WhisperStep: string := "whisper"

  /** A progress fraction kept as numerator over denominator, so that no division is performed. */
  datatype Ratio = Ratio(num: real, den: real) {
    function Value(): real
      requires den != 0.0
    {
      num / den
    }
  }

  datatype Event =
    | Step(step: string)
    | Progress(step: string, fraction: Ratio)
    | Error(step: string, message: string)

  /** Number of error notifications in a log. */
  function CountErrors(es: seq<Event>): nat
  {
    if es == [] then 0
    else CountErrors(es[..|es| - 1]) + (if es[|es| - 1].Error? then 1 else 0)
  }

  lemma {:induction false} CountErrorsAppend(a: seq<Event>, b: seq<Event>)
    ensures CountErrors(a + b) == CountErrors(a) + CountErrors(b)
    decreases |b|
  {
    if b != [] {
      assert (a + b)[..|a + b| - 1] == a + b[..|b| - 1];
      CountErrorsAppend(a, b[..|b| - 1]);
    } else {
      assert a + b == a;
    }
  }

  /** A single event counts as an error exactly when it is one. */
  lemma CountErrorsSingle(e: Event)
    ensures CountErrors([e]) == if e.Error? then 1 else 0
  {
    assert [e][..0] == [];
  }

  /** A log holding no error notification has a count of zero, and conversely. */
  lemma {:induction false} CountErrorsZero(es: seq<Event>)
    ensures CountErrors(es) == 0 <==> forall i :: 0 <= i < |es| ==> !es[i].Error?
    decreases |es|
  {
    if es != [] {
      CountErrorsZero(es[..|es| - 1]);
      assert forall i :: 0 <= i < |es| - 1 ==> es[..|es| - 1][i] == es[i];
    }
  }

  /** The reporter: `setStep`, `setProgress` and `setError` each append one event. */
  class Reporter {
    var events: seq<Event>

    constructor ()
      ensures events == []
    {
      events := [];
    }

    method SetStep(step: string)
      modifies this
      ensures events == old(events) + [Step(step)]
    {
      events := events + [Step(step)];
    }

    method SetProgress(step: string, fraction: Ratio)
      modifies this
      ensures events == old(events) + [Progress(step, fraction)]
    {
      events := events + [Progress(step, fraction)];
    }

    method SetError(step: string, message: string)
      modifies this
      ensures events == old(events) + [Error(step, message)]
    {
      events := events + [Error(step, message)];
    }
  }
}
