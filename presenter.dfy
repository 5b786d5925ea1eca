/**
 * The state of the `FileReader` component of src/App.js and its transitions: typing into the
 * input, the two callbacks of the CSV load, the Calculate button and the key handler of the
 * input. `Step` is the transition function on a snapshot of the four state variables; the class
 * `FileReader` holds those variables as fields and each of its methods performs one `Step`.
 */
module FileReaderComponent {
  import opened Wrappers
  import opened FundLookup

  /** The four state variables: input text, parsed rows, result and result colour. */
  datatype Snapshot = Snapshot(textValue: string, csvData: seq<Row>, result: ResultValue, resultColor: string)

  /** The state when the component mounts. */
  const Initial := Snapshot("", [], Text(""), Grey)

  /** Everything that can happen to the component. */
  datatype Event =
    | Typed(text: string)            // the input's change handler
    | LoadCompleted(rows: seq<Row>)  // the parser's completion callback
    | LoadFailed(message: string)    // the parser's error callback
    | Click                          // the Calculate button
    | KeyDown(key: string)           // the input's key handler

  /** The events that run the calculation. */
  predicate Evaluates(e: Event)
  {
    e.Click? || (e.KeyDown? && e.key == "Enter")
  }

  /** The calculation: result and colour become the outcome of searching the rows for the input. */
  function Calculate(s: Snapshot): (t: Snapshot)
    ensures t.textValue == s.textValue && t.csvData == s.csvData
    ensures t.result.Record? <==> exists i :: 0 <= i < |s.csvData| && Matches(s.csvData[i], s.textValue)
    ensures t.result.Text? ==> t.result.text == NoFundFound && t.resultColor == Red
    ensures forall i :: IsFirstMatch(s.csvData, s.textValue, i) ==>
      && t.result == Record(Fund(Cell(s.csvData[i], ParentFundColumn), Cell(s.csvData[i], SubFundColumn)))
      && t.resultColor == Green
  {
    var o := Evaluate(s.csvData, s.textValue);
    s.(result := o.result, resultColor := o.colour)
  }

  /** One event: typing sets the input, a completed load the dataset, a calculation result and colour. */
  function Step(s: Snapshot, e: Event): (r: Snapshot)
    ensures r.textValue == if e.Typed? then e.text else s.textValue
    ensures r.csvData == if e.LoadCompleted? then e.rows else s.csvData
    ensures Evaluates(e) ==> r == Calculate(s)
    ensures !Evaluates(e) ==> r.result == s.result && r.resultColor == s.resultColor
  {
    match e
    case Typed(text) => s.(textValue := text)
    case LoadCompleted(rows) => s.(csvData := rows)
    case LoadFailed(_) => s
    case Click => Calculate(s)
    case KeyDown(key) => if key == "Enter" then Calculate(s) else s
  }

  /** The state after a sequence of events, in order. */
  function Run(s: Snapshot, events: seq<Event>): (r: Snapshot)
    decreases |events|
  {
    if events == [] then s else Run(Step(s, events[0]), events[1..])
  }

  /** Calculating again with nothing changed in between changes nothing. */
  lemma CalculateIdempotent(s: Snapshot)
    ensures Calculate(Calculate(s)) == Calculate(s)
  {
  }

  /** Enter in the input is the button; any other key leaves the whole state as it was. */
  lemma KeyDownIsClickOnEnter(s: Snapshot, key: string)
    ensures key == "Enter" ==> Step(s, KeyDown(key)) == Step(s, Click)
    ensures key != "Enter" ==> Step(s, KeyDown(key)) == s
  {
  }

  /** A failed load leaves the whole state, the dataset included, as it was. */
  lemma LoadFailureChangesNothing(s: Snapshot, message: string)
    ensures Step(s, LoadFailed(message)) == s
  {
  }

  /** The colour always agrees with the kind of result. */
  predicate Consistent(s: Snapshot)
  {
    || (s.result == Text("") && s.resultColor == Grey)
    || (s.result == Text(NoFundFound) && s.resultColor == Red)
    || (s.result.Record? && s.resultColor == Green)
  }

  lemma {:induction false} RunPreservesConsistent(s: Snapshot, events: seq<Event>)
    requires Consistent(s)
    ensures Consistent(Run(s, events))
    decreases |events|
  {
    if events != [] {
      RunPreservesConsistent(Step(s, events[0]), events[1..]);
    }
  }

  lemma {:induction false} RunAppend(s: Snapshot, first: seq<Event>, second: seq<Event>)
    ensures Run(s, first + second) == Run(Run(s, first), second)
    decreases |first|
  {
    if first == [] {
      assert first + second == second;
    } else {
      assert first + second != [];
      assert (first + second)[0] == first[0];
      assert (first + second)[1..] == first[1..] + second;
      RunAppend(Step(s, first[0]), first[1..], second);
    }
  }

  /** Result and colour change only through a calculation; once one has run, the result is never `""` again. */
  lemma {:induction false} ResultChangesOnlyByCalculation(s: Snapshot, events: seq<Event>)
    ensures (forall i :: 0 <= i < |events| ==> !Evaluates(events[i])) ==>
      Run(s, events).result == s.result && Run(s, events).resultColor == s.resultColor
    ensures (exists i :: 0 <= i < |events| && Evaluates(events[i])) ==> Run(s, events).result != Text("")
    decreases |events|
  {
    if events != [] {
      var rest := events[1..];
      ResultChangesOnlyByCalculation(Step(s, events[0]), rest);
      assert forall i :: 0 <= i < |rest| ==> rest[i] == events[i + 1];
      if Evaluates(events[0]) {
        assert Step(s, events[0]).result != Text("");
      } else if exists i :: 0 <= i < |events| && Evaluates(events[i]) {
        var i :| 0 <= i < |events| && Evaluates(events[i]);
        assert Evaluates(rest[i - 1]);
      }
    }
  }

  /** From mount, the result is still `""` exactly when no calculation has run. */
  lemma InitialResultUntilCalculated(events: seq<Event>)
    ensures Run(Initial, events).result == Text("") <==> forall i :: 0 <= i < |events| ==> !Evaluates(events[i])
  {
    ResultChangesOnlyByCalculation(Initial, events);
  }

  /** The dataset changes only on a completed load, and the input text only by typing. */
  lemma {:induction false} InputsChangeOnlyByTheirEvents(s: Snapshot, events: seq<Event>)
    ensures (forall i :: 0 <= i < |events| ==> !events[i].LoadCompleted?) ==> Run(s, events).csvData == s.csvData
    ensures (forall i :: 0 <= i < |events| ==> !events[i].Typed?) ==> Run(s, events).textValue == s.textValue
    decreases |events|
  {
    if events != [] {
      var rest := events[1..];
      assert forall i :: 0 <= i < |rest| ==> rest[i] == events[i + 1];
      InputsChangeOnlyByTheirEvents(Step(s, events[0]), rest);
    }
  }

  /** Without a completed load the dataset stays empty, so every calculation reports no fund. */
  lemma WithoutLoadEveryLookupMisses(events: seq<Event>, e: Event)
    requires forall i :: 0 <= i < |events| ==> !events[i].LoadCompleted?
    requires Evaluates(e)
    ensures Run(Initial, events + [e]).result == Text(NoFundFound)
    ensures Run(Initial, events + [e]).resultColor == Red
  {
    InputsChangeOnlyByTheirEvents(Initial, events);
    RunAppend(Initial, events, [e]);
  }

  /** At mount the result area shows the empty string as a paragraph. */
  lemma InitialRendersEmptyParagraph()
    ensures Render(Initial.result) == Paragraph("")
  {
  }

  /** The component, holding its four state variables as fields. */
  class FileReader {
    var textValue: string
    var csvData: seq<Row>
    var result: ResultValue
    var resultColor: string

    function State(): Snapshot
      reads this
    {
      Snapshot(textValue, csvData, result, resultColor)
    }

    ghost predicate Valid()
      reads this
    {
      Consistent(State())
    }

    constructor ()
      ensures State() == Initial && Valid()
    {
      textValue := "";
      csvData := [];
      result := Text("");
      resultColor := Grey;
    }

    /** The input's change handler. */
    method SetTextValue(text: string)
      requires Valid()
      modifies this
      ensures Valid()
      ensures State() == Step(old(State()), Typed(text))
    {
      textValue := text;
    }

    /** The parser's completion callback: the parsed rows replace the dataset. */
    method LoadComplete(rows: seq<Row>)
      requires Valid()
      modifies this
      ensures Valid()
      ensures State() == Step(old(State()), LoadCompleted(rows))
    {
      csvData := rows;
    }

    /** The parser's error callback: only a log line, so nothing changes. */
    method LoadError(message: string)
      requires Valid()
      ensures Valid()
      ensures State() == Step(old(State()), LoadFailed(message))
    {
    }

    method HandleCalculate()
      requires Valid()
      modifies this
      ensures Valid()
      ensures State() == Step(old(State()), Click)
    {
      var found := Find(csvData, textValue);
      if found.Some? {
        result := Record(Project(csvData[found.value]));
        resultColor := Green;
      } else {
        result := Text(NoFundFound);
        resultColor := Red;
      }
    }

    method HandleKeyPress(key: string)
      requires Valid()
      modifies this
      ensures Valid()
      ensures State() == Step(old(State()), KeyDown(key))
    {
      if key == "Enter" {
        HandleCalculate();
      }
    }
  }
}
