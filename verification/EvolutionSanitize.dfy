/** The sanitizers of cycle lists and cycle details. */
module EvolutionSanitize {

  import opened Prelude
  import opened Json
  import opened Whitespace
  import CycleRecords

  // ---------------------------------------------------------------- unique strings

  function Texts(values: seq<Json>): (texts: seq<string>)
    ensures |texts| == |values|
  {
    seq(|values|, i requires 0 <= i < |values| => Or(Trimmed(values[i]), ""))
  }

  /** The trimmed strings among the values, each once, where it first occurs. */
  function UniqueStrings(values: seq<Json>): seq<string>
  {
    CycleRecords.First(Texts(values))
  }

  method CollectUnique(values: seq<Json>) returns (out: seq<string>)
    ensures out == UniqueStrings(values)
  {
    out := [];
    var seen: set<string> := {};
    for i := 0 to |values|
      invariant out == CycleRecords.First(Texts(values[..i]))
      invariant forall s :: s in seen <==> s in out
    {
      assert Texts(values[..i + 1])[..i] == Texts(values[..i]);
      var text := Trimmed(values[i]);
      if text.None? || text.value in seen { continue; }
      TrimmedIsNeat(values[i]);
      seen := seen + {text.value};
      out := out + [text.value];
    }
    assert values[..|values|] == values;
  }

  // ---------------------------------------------------------------- steps

  datatype Step = Step(status: string, updatedAt: Option<string>, error: Option<string>)

  datatype NamedStep = NamedStep(name: string, step: Step)

  function SanitizeStep(v: Json): Option<Step>
  {
    if !v.Obj? then None
    else Some(Step(Or(Trimmed(Get(v, "status")), "pending"), Trimmed(Get(v, "updated_at")), Trimmed(Get(v, "error"))))
  }

  /** Assigns a property: a new one comes last, one that is there keeps its place. */
  function Assigned(steps: seq<NamedStep>, step: NamedStep): seq<NamedStep>
  {
    if steps == [] then [step]
    else if steps[0].name == step.name then [step] + steps[1..]
    else [steps[0]] + Assigned(steps[1..], step)
  }

  function SanitizeFields(fields: seq<Field>): seq<NamedStep>
  {
    if fields == [] then []
    else
      var rest, last := SanitizeFields(fields[..|fields| - 1]), fields[|fields| - 1];
      var key, step := Trimmed(Str(last.name)), SanitizeStep(last.value);
      if key.None? || step.None? then rest else Assigned(rest, NamedStep(key.value, step.value))
  }

  function SanitizeSteps(v: Json): seq<NamedStep>
  {
    if v.Obj? then SanitizeFields(v.fields) else []
  }

  method CollectSteps(v: Json) returns (steps: seq<NamedStep>)
    ensures steps == SanitizeSteps(v)
  {
    steps := [];
    if !v.Obj? { return; }
    for i := 0 to |v.fields|
      invariant steps == SanitizeFields(v.fields[..i])
    {
      assert v.fields[..i + 1][..i] == v.fields[..i];
      var key, step := Trimmed(Str(v.fields[i].name)), SanitizeStep(v.fields[i].value);
      if key.None? || step.None? { continue; }
      steps := Assigned(steps, NamedStep(key.value, step.value));
    }
    assert v.fields[..|v.fields|] == v.fields;
  }

  // ---------------------------------------------------------------- details

  datatype Detail = Detail(
    subject: string, cycleId: string, status: Option<string>, openedAt: Option<string>, closedAt: Option<string>,
    hasReport: bool, steps: seq<NamedStep>, blockers: seq<string>)

  function Errors(steps: seq<NamedStep>): (errors: seq<Json>)
    ensures |errors| == |steps|
  {
    seq(|steps|, i requires 0 <= i < |steps| => OrNull(steps[i].step.error))
  }

  function SanitizeDetail(v: Json): Option<Detail>
  {
    var subject, cycleId := Trimmed(Get(v, "subject")), Trimmed(Get(v, "cycle_id"));
    if subject.None? || cycleId.None? then None
    else
      var steps := SanitizeSteps(Get(v, "steps"));
      Some(Detail(subject.value, cycleId.value, Trimmed(Get(v, "cycle_status")), Trimmed(Get(v, "opened_at")),
                  Trimmed(Get(v, "closed_at")), Get(v, "has_report") == Bool(true), steps,
                  UniqueStrings(ItemsOf(Get(v, "blockers")) + Errors(steps))))
  }

  /** A sanitized detail as the value it is sent as. */
  function StepFields(steps: seq<NamedStep>): (fields: seq<Field>)
    ensures |fields| == |steps|
  {
    seq(|steps|, i requires 0 <= i < |steps| => Field(steps[i].name, EncodeStep(steps[i].step)))
  }

  function EncodeStep(step: Step): Json
  {
    Obj([Field("status", Str(step.status)), Field("updated_at", OrNull(step.updatedAt)),
         Field("error", OrNull(step.error))])
  }

  function Strings(texts: seq<string>): (items: seq<Json>)
    ensures |items| == |texts|
  {
    seq(|texts|, i requires 0 <= i < |texts| => Str(texts[i]))
  }

  function EncodeDetail(d: Detail): Json
  {
    Obj([Field("subject", Str(d.subject)), Field("cycle_id", Str(d.cycleId)), Field("cycle_status", OrNull(d.status)),
         Field("opened_at", OrNull(d.openedAt)), Field("closed_at", OrNull(d.closedAt)),
         Field("has_report", Bool(d.hasReport)),
         Field("steps", Obj(StepFields(d.steps))), Field("blockers", Arr(Strings(d.blockers)))])
  }

  // ---------------------------------------------------------------- cycle lists

  datatype Summary = Summary(
    cycleId: string, generatedAt: Option<string>, tldr: Option<string>, hasDiary: bool, status: Option<string>)

  datatype CycleList = CycleList(subject: string, namespace: string, roundCount: real, cycles: seq<Summary>)

  function SanitizeSummary(v: Json): Option<Summary>
  {
    var id := Trimmed(Get(v, "cycle_id"));
    if id.None? then None
    else Some(Summary(id.value, Trimmed(Get(v, "generated_at")), Trimmed(Get(v, "tldr")),
                      Get(v, "has_diary") == Bool(true), Trimmed(Get(v, "status"))))
  }

  predicate HasId(cycles: seq<Summary>, id: string)
  {
    exists c :: c in cycles && c.cycleId == id
  }

  function SanitizeCycles(items: seq<Json>): seq<Summary>
  {
    if items == [] then []
    else
      var rest, cycle := SanitizeCycles(items[..|items| - 1]), SanitizeSummary(items[|items| - 1]);
      if cycle.None? || HasId(rest, cycle.value.cycleId) then rest else rest + [cycle.value]
  }

  function SanitizeList(v: Json): Option<CycleList>
  {
    var subject := Trimmed(Get(v, "subject"));
    if subject.None? then None
    else
      var cycles, count := SanitizeCycles(ItemsOf(Get(v, "cycles"))), Get(v, "round_count");
      Some(CycleList(subject.value, Or(Trimmed(Get(v, "namespace")), subject.value),
                     if count.Number? then count.n else |cycles| as real, cycles))
  }

  method CollectCycles(items: seq<Json>) returns (cycles: seq<Summary>)
    ensures cycles == SanitizeCycles(items)
  {
    cycles := [];
    var seen: set<string> := {};
    for i := 0 to |items|
      invariant cycles == SanitizeCycles(items[..i])
      invariant forall id :: id in seen <==> HasId(cycles, id)
    {
      assert items[..i + 1][..i] == items[..i];
      var cycle := SanitizeSummary(items[i]);
      if cycle.None? || cycle.value.cycleId in seen { continue; }
      seen := seen + {cycle.value.cycleId};
      ghost var before := cycles;
      cycles := cycles + [cycle.value];
      forall id ensures id in seen <==> HasId(cycles, id) {
        assert id in seen <==> HasId(before, id) || id == cycle.value.cycleId;
      }
    }
    assert items[..|items|] == items;
  }

  function EncodeSummary(c: Summary): Json
  {
    Obj([Field("cycle_id", Str(c.cycleId)), Field("generated_at", OrNull(c.generatedAt)), Field("tldr", OrNull(c.tldr)),
         Field("has_diary", Bool(c.hasDiary)), Field("status", OrNull(c.status))])
  }

  function EncodeCycles(cycles: seq<Summary>): (items: seq<Json>)
    ensures |items| == |cycles|
  {
    seq(|cycles|, i requires 0 <= i < |cycles| => EncodeSummary(cycles[i]))
  }

  function EncodeList(l: CycleList): Json
  {
    Obj([Field("subject", Str(l.subject)), Field("namespace", Str(l.namespace)),
         Field("round_count", Number(l.roundCount)),
         Field("cycles", Arr(EncodeCycles(l.cycles)))])
  }

  // ---------------------------------------------------------------- what sanitizing leaves

  ghost predicate NeatOption(s: Option<string>)
  {
    s.Some? ==> Neat(s.value)
  }

  ghost predicate NeatStep(s: NamedStep)
  {
    Neat(s.name) && Neat(s.step.status) && NeatOption(s.step.updatedAt) && NeatOption(s.step.error)
  }

  ghost predicate NeatSteps(steps: seq<NamedStep>)
  {
    && (forall s :: s in steps ==> NeatStep(s))
    && (forall i, j :: 0 <= i < j < |steps| ==> steps[i].name != steps[j].name)
  }

  ghost predicate NeatSummary(c: Summary)
  {
    Neat(c.cycleId) && NeatOption(c.generatedAt) && NeatOption(c.tldr) && NeatOption(c.status)
  }

  ghost predicate NeatCycles(cycles: seq<Summary>)
  {
    && (forall c :: c in cycles ==> NeatSummary(c))
    && (forall i, j :: 0 <= i < j < |cycles| ==> cycles[i].cycleId != cycles[j].cycleId)
  }

  lemma PendingIsNeat()
    ensures Neat("pending")
  {
    assert TrimStart("pending") == "pending" && TrimEnd("pending") == "pending";
  }

  lemma StepIsNeat(v: Json)
    ensures var s := SanitizeStep(v);
            s.Some? ==> Neat(s.value.status) && NeatOption(s.value.updatedAt) && NeatOption(s.value.error)
  {
    TrimmedIsNeat(Get(v, "status"));
    TrimmedIsNeat(Get(v, "updated_at"));
    TrimmedIsNeat(Get(v, "error"));
    PendingIsNeat();
  }

  lemma {:induction false} AssignedIsNeat(steps: seq<NamedStep>, step: NamedStep)
    requires NeatSteps(steps) && NeatStep(step)
    ensures NeatSteps(Assigned(steps, step))
    ensures forall s :: s in Assigned(steps, step) ==> s == step || s in steps
  {
    hide NeatStep;
    if steps != [] && steps[0].name != step.name {
      AssignedIsNeat(steps[1..], step);
      assert forall s :: s in steps[1..] ==> s in steps && s.name != steps[0].name;
    }
  }

  lemma {:induction false} AssignedLast(steps: seq<NamedStep>, step: NamedStep)
    requires forall s :: s in steps ==> s.name != step.name
    ensures Assigned(steps, step) == steps + [step]
  {
    if steps != [] {
      assert steps[0] in steps;
      AssignedLast(steps[1..], step);
    }
  }

  lemma {:induction false} FieldsAreNeat(fields: seq<Field>)
    ensures NeatSteps(SanitizeFields(fields))
  {
    if fields != [] {
      var last := fields[|fields| - 1];
      FieldsAreNeat(fields[..|fields| - 1]);
      TrimmedIsNeat(Str(last.name));
      StepIsNeat(last.value);
      var key, step := Trimmed(Str(last.name)), SanitizeStep(last.value);
      if key.Some? && step.Some? {
        AssignedIsNeat(SanitizeFields(fields[..|fields| - 1]), NamedStep(key.value, step.value));
      }
    }
  }

  lemma StepAgain(step: NamedStep)
    requires NeatStep(step)
    ensures SanitizeStep(EncodeStep(step.step)) == Some(step.step) && Trimmed(Str(step.name)) == Some(step.name)
  {
    hide Trim;
    var fields := EncodeStep(step.step).fields;
    FieldAt(fields, 0);
    FieldAt(fields, 1);
    FieldAt(fields, 2);
  }

  lemma {:induction false} StepsAgain(steps: seq<NamedStep>)
    requires NeatSteps(steps)
    ensures SanitizeFields(StepFields(steps)) == steps
  {
    hide NeatStep, SanitizeStep, EncodeStep, Trimmed;
    if steps != [] {
      var n := |steps| - 1;
      var last := steps[n];
      StepsAgain(steps[..n]);
      assert StepFields(steps)[..n] == StepFields(steps[..n]);
      StepAgain(last);
      AssignedLast(steps[..n], last);
      assert steps == steps[..n] + [last];
    }
  }

  // ---------------------------------------------------------------- blockers

  lemma {:induction false} TextsOfStrings(texts: seq<string>)
    requires forall s :: s in texts ==> Neat(s)
    ensures Texts(Strings(texts)) == texts
  {
    forall i | 0 <= i < |texts| ensures Texts(Strings(texts))[i] == texts[i] {
      assert Neat(texts[i]);
    }
  }

  lemma UniqueAreNeat(values: seq<Json>)
    ensures var r := UniqueStrings(values);
            && CycleRecords.Clean(r) && (forall b :: b in r ==> Neat(b))
            && forall v :: v in values && Trimmed(v).Some? ==> Trimmed(v).value in r
  {
    hide Trimmed, Neat;
    var r := UniqueStrings(values);
    CycleRecords.FirstIsClean(Texts(values));
    forall b | b in r ensures Neat(b) {
      var i :| 0 <= i < |values| && Texts(values)[i] == b;
      TrimmedIsNeat(values[i]);
    }
    forall v | v in values && Trimmed(v).Some? ensures Trimmed(v).value in r {
      var i :| 0 <= i < |values| && values[i] == v;
      assert Texts(values)[i] == Trimmed(v).value;
      SomeIsNeat(v);
    }
  }

  lemma SomeIsNeat(v: Json)
    ensures Trimmed(v).Some? ==> Trimmed(v).value != ""
  {
    TrimmedIsNeat(v);
  }

  lemma ErrorIsThere(steps: seq<NamedStep>, s: NamedStep)
    requires s in steps && NeatStep(s) && s.step.error.Some?
    ensures Str(s.step.error.value) in Errors(steps) && Trimmed(Str(s.step.error.value)) == s.step.error
  {
    var i :| 0 <= i < |steps| && steps[i] == s;
    assert Errors(steps)[i] == Str(s.step.error.value);
  }

  lemma StepsAreNeat(v: Json)
    ensures NeatSteps(SanitizeSteps(v))
  {
    if v.Obj? { FieldsAreNeat(v.fields); }
  }

  /** Blockers are distinct, trimmed and not empty, and every error of a step is among them. */
  lemma BlockersHoldErrors(v: Json)
    requires SanitizeDetail(v).Some?
    ensures var d := SanitizeDetail(v).value;
            && CycleRecords.Clean(d.blockers) && (forall b :: b in d.blockers ==> Neat(b))
            && NeatSteps(d.steps)
            && forall s :: s in d.steps && s.step.error.Some? ==> s.step.error.value in d.blockers
  {
    hide Trimmed, Neat, NeatStep, SanitizeSteps, UniqueStrings, CycleRecords.Clean;
    var d := SanitizeDetail(v).value;
    var values := ItemsOf(Get(v, "blockers")) + Errors(d.steps);
    UniqueAreNeat(values);
    StepsAreNeat(Get(v, "steps"));
    forall s | s in d.steps && s.step.error.Some? ensures s.step.error.value in d.blockers {
      ErrorIsThere(d.steps, s);
      assert Str(s.step.error.value) in values;
    }
  }

  lemma ErrorTexts(steps: seq<NamedStep>, blockers: seq<string>)
    requires NeatSteps(steps)
    requires forall s :: s in steps && s.step.error.Some? ==> s.step.error.value in blockers
    ensures forall e :: e in Texts(Errors(steps)) && e != "" ==> e in blockers
  {
    forall e | e in Texts(Errors(steps)) && e != "" ensures e in blockers {
      var i :| 0 <= i < |steps| && Texts(Errors(steps))[i] == e;
      assert steps[i] in steps && NeatStep(steps[i]);
    }
  }

  /** Folding the errors of the steps in once more adds nothing. */
  lemma BlockersAgain(d: Detail)
    requires CycleRecords.Clean(d.blockers) && (forall b :: b in d.blockers ==> Neat(b)) && NeatSteps(d.steps)
    requires forall s :: s in d.steps && s.step.error.Some? ==> s.step.error.value in d.blockers
    ensures UniqueStrings(Strings(d.blockers) + Errors(d.steps)) == d.blockers
  {
    hide Neat, NeatStep, Trimmed, CycleRecords.Clean;
    TextsOfStrings(d.blockers);
    ErrorTexts(d.steps, d.blockers);
    var errors := Errors(d.steps);
    assert Texts(Strings(d.blockers) + errors) == Texts(Strings(d.blockers)) + Texts(errors);
    CycleRecords.FirstAgain(d.blockers, Texts(errors));
  }

  // ---------------------------------------------------------------- sanitizing twice

  lemma DetailHead(d: Detail)
    ensures var v := EncodeDetail(d);
            && Get(v, "subject") == Str(d.subject) && Get(v, "cycle_id") == Str(d.cycleId)
            && Get(v, "cycle_status") == OrNull(d.status) && Get(v, "opened_at") == OrNull(d.openedAt)
  {
    hide StepFields, Strings, OrNull;
    var fields := EncodeDetail(d).fields;
    FieldAt(fields, 0);
    FieldAt(fields, 1);
    FieldAt(fields, 2);
    FieldAt(fields, 3);
  }

  lemma DetailTail(d: Detail)
    ensures var v := EncodeDetail(d);
            && Get(v, "closed_at") == OrNull(d.closedAt) && Get(v, "has_report") == Bool(d.hasReport)
            && Get(v, "steps") == Obj(StepFields(d.steps)) && Get(v, "blockers") == Arr(Strings(d.blockers))
  {
    hide StepFields, Strings, OrNull;
    var fields := EncodeDetail(d).fields;
    FieldAt(fields, 4);
    FieldAt(fields, 5);
    FieldAt(fields, 6);
    FieldAt(fields, 7);
  }

  lemma NeatAgain(s: Option<string>)
    requires NeatOption(s)
    ensures Trimmed(OrNull(s)) == s && Trimmed(OrUndefined(s)) == s
  {
  }

  ghost predicate NeatDetail(d: Detail)
  {
    && Neat(d.subject) && Neat(d.cycleId) && NeatOption(d.status) && NeatOption(d.openedAt) && NeatOption(d.closedAt)
    && CycleRecords.Clean(d.blockers) && (forall b :: b in d.blockers ==> Neat(b)) && NeatSteps(d.steps)
    && forall s :: s in d.steps && s.step.error.Some? ==> s.step.error.value in d.blockers
  }

  lemma DetailIsNeat(v: Json)
    requires SanitizeDetail(v).Some?
    ensures NeatDetail(SanitizeDetail(v).value)
  {
    hide Neat, NeatSteps, CycleRecords.Clean, SanitizeSteps, UniqueStrings, Trimmed;
    BlockersHoldErrors(v);
    TrimmedIsNeat(Get(v, "subject"));
    TrimmedIsNeat(Get(v, "cycle_id"));
    TrimmedIsNeat(Get(v, "cycle_status"));
    TrimmedIsNeat(Get(v, "opened_at"));
    TrimmedIsNeat(Get(v, "closed_at"));
  }

  lemma DetailAgain(d: Detail)
    requires NeatDetail(d)
    ensures SanitizeDetail(EncodeDetail(d)) == Some(d)
  {
    NeatAgain(Some(d.subject));
    NeatAgain(Some(d.cycleId));
    hide Neat, NeatSteps, Trimmed, SanitizeFields, UniqueStrings, SanitizeDetail, EncodeDetail;
    BlockersAgain(d);
    StepsAgain(d.steps);
    DetailHead(d);
    DetailTail(d);
    NeatAgain(d.status);
    NeatAgain(d.openedAt);
    NeatAgain(d.closedAt);
    DetailFromParts(EncodeDetail(d), d);
  }

  /** A sanitized detail, sent and sanitized again, is unchanged. */
  lemma DetailIsIdempotent(v: Json)
    ensures var d := SanitizeDetail(v);
            d.Some? ==> SanitizeDetail(EncodeDetail(d.value)) == d
  {
    hide SanitizeDetail, EncodeDetail, NeatDetail;
    if SanitizeDetail(v).Some? {
      DetailIsNeat(v);
      DetailAgain(SanitizeDetail(v).value);
    }
  }

  lemma DetailFromParts(v: Json, d: Detail)
    requires Trimmed(Get(v, "subject")) == Some(d.subject) && Trimmed(Get(v, "cycle_id")) == Some(d.cycleId)
    requires Trimmed(Get(v, "cycle_status")) == d.status && Trimmed(Get(v, "opened_at")) == d.openedAt
    requires Trimmed(Get(v, "closed_at")) == d.closedAt && Get(v, "has_report") == Bool(d.hasReport)
    requires SanitizeSteps(Get(v, "steps")) == d.steps
    requires UniqueStrings(ItemsOf(Get(v, "blockers")) + Errors(d.steps)) == d.blockers
    ensures SanitizeDetail(v) == Some(d)
  {
    hide Get, Trimmed, SanitizeSteps, UniqueStrings;
  }

  // ---------------------------------------------------------------- cycle lists

  lemma {:induction false} CyclesAreNeat(items: seq<Json>)
    ensures NeatCycles(SanitizeCycles(items))
  {
    if items != [] {
      CyclesAreNeat(items[..|items| - 1]);
      var v := items[|items| - 1];
      TrimmedIsNeat(Get(v, "cycle_id"));
      TrimmedIsNeat(Get(v, "generated_at"));
      TrimmedIsNeat(Get(v, "tldr"));
      TrimmedIsNeat(Get(v, "status"));
    }
  }

  lemma SummaryAgain(c: Summary)
    requires NeatSummary(c)
    ensures SanitizeSummary(EncodeSummary(c)) == Some(c)
  {
    hide Trim;
    var fields := EncodeSummary(c).fields;
    FieldAt(fields, 0);
    FieldAt(fields, 1);
    FieldAt(fields, 2);
    FieldAt(fields, 3);
    FieldAt(fields, 4);
  }

  lemma {:induction false} CyclesAgain(cycles: seq<Summary>)
    requires NeatCycles(cycles)
    ensures SanitizeCycles(EncodeCycles(cycles)) == cycles
  {
    hide NeatSummary, SanitizeSummary, EncodeSummary;
    if cycles != [] {
      var n := |cycles| - 1;
      CyclesAgain(cycles[..n]);
      assert EncodeCycles(cycles)[..n] == EncodeCycles(cycles[..n]);
      SummaryAgain(cycles[n]);
      assert cycles == cycles[..n] + [cycles[n]];
    }
  }

  lemma ListAgain(l: CycleList)
    requires Neat(l.subject) && Neat(l.namespace) && NeatCycles(l.cycles)
    ensures SanitizeList(EncodeList(l)) == Some(l)
  {
    NeatAgain(Some(l.subject));
    NeatAgain(Some(l.namespace));
    hide SanitizeCycles, EncodeCycles, Trimmed, NeatCycles;
    CyclesAgain(l.cycles);
    var fields := EncodeList(l).fields;
    FieldAt(fields, 0);
    FieldAt(fields, 1);
    FieldAt(fields, 2);
    FieldAt(fields, 3);
  }

  /** A sanitized list has distinct, trimmed ids, and sanitizing it again leaves it unchanged. */
  lemma ListIsIdempotent(v: Json)
    ensures var l := SanitizeList(v);
            l.Some? ==> NeatCycles(l.value.cycles) && SanitizeList(EncodeList(l.value)) == l
  {
    hide EncodeList, SanitizeCycles, Trimmed, NeatCycles;
    if SanitizeList(v).Some? {
      CyclesAreNeat(ItemsOf(Get(v, "cycles")));
      TrimmedIsNeat(Get(v, "subject"));
      TrimmedIsNeat(Get(v, "namespace"));
      ListAgain(SanitizeList(v).value);
    }
  }
}
