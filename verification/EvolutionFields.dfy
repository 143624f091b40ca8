/** Each field of a sanitized cycle list or detail, from the raw value it comes from. */
module EvolutionFields {

  import opened Prelude
  import opened Json
  import opened Whitespace
  import opened EvolutionSanitize
  import CycleRecords

  /** The raw value has a text under this name, with `text` left after trimming. */
  ghost predicate Says(v: Json, name: string, text: string)
  {
    Get(v, name).Str? && Trim(Get(v, name).text) == text && text != ""
  }

  ghost predicate IsSilent(v: Json, name: string)
  {
    forall text :: !Says(v, name, text)
  }

  /** The field is the text of the raw value, or absent with it. */
  ghost predicate Is(v: Json, name: string, field: Option<string>)
  {
    match field
    case None => IsSilent(v, name)
    case Some(text) => Says(v, name, text)
  }

  lemma TrimmedIs(v: Json, name: string)
    ensures Is(v, name, Trimmed(Get(v, name)))
  {
  }

  /** A step is a record; without a status it is pending. */
  lemma StepFromRaw(v: Json)
    ensures SanitizeStep(v).Some? <==> v.Obj?
    ensures v.Obj? ==>
              var s := SanitizeStep(v).value;
              && (if IsSilent(v, "status") then s.status == "pending" else Says(v, "status", s.status))
              && Is(v, "updated_at", s.updatedAt) && Is(v, "error", s.error)
  {
    TrimmedIs(v, "status");
    TrimmedIs(v, "updated_at");
    TrimmedIs(v, "error");
    hide Trimmed, Says, Get;
  }

  /** The last entry of a record of steps that has this name and is a step. */
  ghost predicate LastStep(fields: seq<Field>, k: int, name: string)
  {
    && NamesStep(fields, k, name)
    && forall j :: k < j < |fields| ==> !NamesStep(fields, j, name)
  }

  ghost predicate NamesStep(fields: seq<Field>, k: int, name: string)
  {
    0 <= k < |fields| && Trim(fields[k].name) == name && name != "" && fields[k].value.Obj?
  }

  lemma {:induction false} AssignedIs(steps: seq<NamedStep>, step: NamedStep)
    requires forall i, j :: 0 <= i < j < |steps| ==> steps[i].name != steps[j].name
    ensures var r := Assigned(steps, step);
            && (forall i, j :: 0 <= i < j < |r| ==> r[i].name != r[j].name)
            && (forall q :: q in r <==> q == step || (q in steps && q.name != step.name))
  {
    if steps != [] && steps[0].name != step.name {
      AssignedIs(steps[1..], step);
      assert steps == [steps[0]] + steps[1..];
      assert steps[0] !in steps[1..];
    }
  }

  /** Each name has one step, that of its last entry. */
  lemma {:induction false} StepsFromRaw(fields: seq<Field>)
    ensures var r := SanitizeFields(fields);
            && (forall i, j :: 0 <= i < j < |r| ==> r[i].name != r[j].name)
            && (forall s :: s in r <==>
                  exists k :: LastStep(fields, k, s.name) && SanitizeStep(fields[k].value) == Some(s.step))
  {
    if fields != [] {
      var n := |fields| - 1;
      StepsFromRaw(fields[..n]);
      var last := fields[n];
      var before, r := SanitizeFields(fields[..n]), SanitizeFields(fields);
      var key, step := Trimmed(Str(last.name)), SanitizeStep(last.value);
      if key.Some? && step.Some? { AssignedIs(before, NamedStep(key.value, step.value)); }
      forall s
        ensures s in r <==> exists k :: LastStep(fields, k, s.name) && SanitizeStep(fields[k].value) == Some(s.step)
      {
        StepsOneMore(fields, s);
      }
    }
  }

  lemma StepsOneMore(fields: seq<Field>, s: NamedStep)
    requires fields != []
    ensures var n := |fields| - 1;
            (exists k :: LastStep(fields, k, s.name) && SanitizeStep(fields[k].value) == Some(s.step)) <==>
            if NamesStep(fields, n, s.name) then SanitizeStep(fields[n].value) == Some(s.step)
            else exists k :: LastStep(fields[..n], k, s.name) && SanitizeStep(fields[..n][k].value) == Some(s.step)
  {
    hide SanitizeStep;
    var n := |fields| - 1;
    assert forall k :: 0 <= k < n ==> (NamesStep(fields, k, s.name) <==> NamesStep(fields[..n], k, s.name));
    if NamesStep(fields, n, s.name) {
      assert LastStep(fields, n, s.name);
    } else {
      assert forall k :: LastStep(fields, k, s.name) <==> LastStep(fields[..n], k, s.name);
    }
  }

  /** A detail needs a subject and a cycle; its blockers are those of the raw value and the errors of its
      steps, in this order, each once. */
  lemma DetailFromRaw(v: Json)
    ensures SanitizeDetail(v).Some? <==> !IsSilent(v, "subject") && !IsSilent(v, "cycle_id")
    ensures SanitizeDetail(v).Some? ==>
              var d := SanitizeDetail(v).value;
              && Says(v, "subject", d.subject) && Says(v, "cycle_id", d.cycleId)
              && Is(v, "cycle_status", d.status) && Is(v, "opened_at", d.openedAt) && Is(v, "closed_at", d.closedAt)
              && (d.hasReport <==> Get(v, "has_report") == Bool(true))
              && d.steps == (if Get(v, "steps").Obj? then SanitizeFields(Get(v, "steps").fields) else [])
              && (forall b :: b in d.blockers <==>
                    (exists raw :: raw in ItemsOf(Get(v, "blockers")) && Trimmed(raw) == Some(b))
                    || (exists s :: s in d.steps && s.step.error == Some(b)))
  {
    TrimmedIs(v, "subject");
    TrimmedIs(v, "cycle_id");
    TrimmedIs(v, "cycle_status");
    TrimmedIs(v, "opened_at");
    TrimmedIs(v, "closed_at");
    if SanitizeDetail(v).Some? {
      var d := SanitizeDetail(v).value;
      var raw := ItemsOf(Get(v, "blockers"));
      BlockersHoldErrors(v);
      forall b ensures b in d.blockers <==>
                       || (exists x :: x in raw && Trimmed(x) == Some(b))
                       || (exists s :: s in d.steps && s.step.error == Some(b))
      {
        BlockerFromRaw(raw, d.steps, b);
      }
    }
    hide Trimmed, Says, Get, UniqueStrings, SanitizeFields;
  }

  lemma BlockerFromRaw(raw: seq<Json>, steps: seq<NamedStep>, b: string)
    requires NeatSteps(steps)
    ensures b in UniqueStrings(raw + Errors(steps)) <==>
            (exists x :: x in raw && Trimmed(x) == Some(b)) || (exists s :: s in steps && s.step.error == Some(b))
  {
    var values := raw + Errors(steps);
    UniqueFromRaw(values, b);
    if x :| x in values && Trimmed(x) == Some(b) && x !in raw {
      var i :| 0 <= i < |steps| && Errors(steps)[i] == x;
      assert steps[i] in steps && NeatStep(steps[i]) && steps[i].step.error == Some(b);
    }
    if s :| s in steps && s.step.error == Some(b) {
      assert NeatStep(s);
      ErrorIsThere(steps, s);
      assert Str(b) in values;
    }
  }

  lemma UniqueFromRaw(values: seq<Json>, b: string)
    ensures b in UniqueStrings(values) <==> exists x :: x in values && Trimmed(x) == Some(b)
  {
    UniqueAreNeat(values);
    CycleRecords.FirstIsClean(Texts(values));
    if b in UniqueStrings(values) {
      var i :| 0 <= i < |values| && Texts(values)[i] == b;
      assert values[i] in values && Trimmed(values[i]) == Some(b);
    }
  }

  /** A cycle needs an id. */
  lemma SummaryFromRaw(v: Json)
    ensures SanitizeSummary(v).Some? <==> !IsSilent(v, "cycle_id")
    ensures SanitizeSummary(v).Some? ==>
              var c := SanitizeSummary(v).value;
              && Says(v, "cycle_id", c.cycleId) && Is(v, "generated_at", c.generatedAt) && Is(v, "tldr", c.tldr)
              && (c.hasDiary <==> Get(v, "has_diary") == Bool(true)) && Is(v, "status", c.status)
  {
    TrimmedIs(v, "cycle_id");
    TrimmedIs(v, "generated_at");
    TrimmedIs(v, "tldr");
    TrimmedIs(v, "status");
    hide Trimmed, Says, Get;
  }

  /** The first of the raw items that is a cycle with this id. */
  ghost predicate FirstCycle(items: seq<Json>, k: int, id: string)
  {
    && 0 <= k < |items| && HasCycle(items[k], id)
    && forall j :: 0 <= j < k ==> !HasCycle(items[j], id)
  }

  ghost predicate HasCycle(v: Json, id: string)
  {
    SanitizeSummary(v).Some? && SanitizeSummary(v).value.cycleId == id
  }

  lemma {:induction false} IdsFromRaw(items: seq<Json>, id: string)
    ensures HasId(SanitizeCycles(items), id) <==> exists k :: 0 <= k < |items| && HasCycle(items[k], id)
  {
    hide SanitizeSummary;
    if items != [] {
      var n := |items| - 1;
      IdsFromRaw(items[..n], id);
      FirstOneMore(items, id);
      var rest, last := SanitizeCycles(items[..n]), SanitizeSummary(items[n]);
      if last.Some? { HasOneMore(rest, last.value, id); }
    }
  }

  lemma HasOneMore(cycles: seq<Summary>, c: Summary, id: string)
    ensures HasId(cycles + [c], id) <==> HasId(cycles, id) || c.cycleId == id
  {
    assert c in cycles + [c];
  }

  /** A cycle is listed if and only if it is the first of the raw items with its id. */
  lemma {:induction false} CyclesFromRaw(items: seq<Json>, c: Summary)
    ensures c in SanitizeCycles(items) <==>
            exists k :: FirstCycle(items, k, c.cycleId) && SanitizeSummary(items[k]) == Some(c)
  {
    hide SanitizeSummary, HasId;
    if items != [] {
      var n := |items| - 1;
      CyclesFromRaw(items[..n], c);
      IdsFromRaw(items[..n], c.cycleId);
      FirstOneMore(items, c.cycleId);
    }
  }

  lemma FirstOneMore(items: seq<Json>, id: string)
    requires items != []
    ensures var n := |items| - 1;
            && (forall k :: 0 <= k < n ==> (FirstCycle(items, k, id) <==> FirstCycle(items[..n], k, id)))
            && (FirstCycle(items, n, id) <==>
                HasCycle(items[n], id) && !exists k :: 0 <= k < n && HasCycle(items[..n][k], id))
            && ((exists k :: 0 <= k < |items| && HasCycle(items[k], id)) <==>
                HasCycle(items[n], id) || exists k :: 0 <= k < n && HasCycle(items[..n][k], id))
  {
    hide HasCycle;
    var n := |items| - 1;
    assert forall k :: 0 <= k < n ==> items[..n][k] == items[k];
  }

  /** A list needs a subject, which stands in for a missing namespace; without a number of rounds it is the
      number of cycles. */
  lemma ListFromRaw(v: Json)
    ensures SanitizeList(v).Some? <==> !IsSilent(v, "subject")
    ensures SanitizeList(v).Some? ==>
              var l := SanitizeList(v).value;
              && Says(v, "subject", l.subject)
              && (if IsSilent(v, "namespace") then l.namespace == l.subject else Says(v, "namespace", l.namespace))
              && l.cycles == SanitizeCycles(if Get(v, "cycles").Arr? then Get(v, "cycles").items else [])
              && (if Get(v, "round_count").Number? then Get(v, "round_count") == Number(l.roundCount)
                  else l.roundCount == |l.cycles| as real)
  {
    TrimmedIs(v, "subject");
    TrimmedIs(v, "namespace");
    hide Trimmed, Says, Get, SanitizeCycles;
  }
}
