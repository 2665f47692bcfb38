/** That the summariser is sent what it has to summarise: where every message and every intermediate
    summary stands in the texts that are sent (src/core/context/summary_executor.py, messages.py). */
module SummaryContent {
  import opened Common
  import opened SummaryUnits

  predicate StandsAt(text: string, part: string, at: nat) { at + |part| <= |text| && text[at..at + |part|] == part }

  ghost predicate Contains(text: string, part: string) { exists at: nat :: StandsAt(text, part, at) }

  lemma StandsInside(before: string, text: string, after: string, part: string, at: nat)
    requires StandsAt(text, part, at)
    ensures StandsAt(before + text + after, part, |before| + at)
  {
    var all := before + text + after;
    assert all[|before| + at..|before| + at + |part|] == text[at..at + |part|];
  }

  /** A heading, a text and what follows: where the first two stand. */
  lemma HeadStands(heading: string, part: string, rest: string)
    ensures StandsAt(heading + part + rest, heading, 0) && StandsAt(heading + part + rest, part, |heading|)
  {
    assert heading + part + rest == heading + (part + rest);
  }

  lemma StandTogether(text: string, heading: string, part: string, at: nat)
    requires at >= |heading| && StandsAt(text, heading, at - |heading|) && StandsAt(text, part, at)
    ensures Contains(text, heading + part)
  {
    assert text[at - |heading|..at + |part|] == text[at - |heading|..at] + text[at..at + |part|];
    assert StandsAt(text, heading + part, at - |heading|);
  }

  /** What stands with its heading in the rest stands with it in the whole. */
  lemma HeadedInside(before: string, text: string, heading: string, part: string, at: nat)
    requires at >= |heading| && StandsAt(text, heading, at - |heading|) && StandsAt(text, part, at)
    ensures StandsAt(before + text, heading, |before| + at - |heading|) && StandsAt(before + text, part, |before| + at)
  {
    assert before + text + "" == before + text;
    StandsInside(before, text, "", part, at);
    StandsInside(before, text, "", heading, at - |heading|);
  }

  /* ---- Lists of texts ---- */

  /** Texts behind their headings, with a separator between them. */
  function Listing(sep: string, heads: seq<string>, texts: seq<string>): string
    requires |heads| == |texts|
    decreases |texts|
  {
    if texts == [] then ""
    else heads[0] + texts[0] + Later(sep, heads, texts)
  }

  /** What follows the first text. */
  function Later(sep: string, heads: seq<string>, texts: seq<string>): string
    requires |heads| == |texts| > 0
    decreases |texts|, 0
  {
    if |texts| == 1 then "" else sep + Listing(sep, heads[1..], texts[1..])
  }

  /** Where text `j` stands. */
  function Place(sep: string, heads: seq<string>, texts: seq<string>, j: nat): nat
    requires j < |heads| == |texts|
  {
    if j == 0 then |heads[0]| else |heads[0]| + |texts[0]| + |sep| + Place(sep, heads[1..], texts[1..], j - 1)
  }

  /** Every text stands in the list behind its heading. */
  lemma {:induction false} ListingHoldsEveryText(sep: string, heads: seq<string>, texts: seq<string>, j: nat)
    requires j < |heads| == |texts|
    ensures
      var text, at := Listing(sep, heads, texts), Place(sep, heads, texts, j);
      at >= |heads[j]| && StandsAt(text, heads[j], at - |heads[j]|) && StandsAt(text, texts[j], at)
    decreases j
  {
    if j == 0 {
      HeadStands(heads[0], texts[0], Later(sep, heads, texts));
    } else {
      var rest := Listing(sep, heads[1..], texts[1..]);
      ListingHoldsEveryText(sep, heads[1..], texts[1..], j - 1);
      HeadedInside(heads[0] + texts[0] + sep, rest, heads[1..][j - 1], texts[1..][j - 1],
                   Place(sep, heads[1..], texts[1..], j - 1));
      assert heads[0] + texts[0] + (sep + rest) == heads[0] + texts[0] + sep + rest;
    }
  }

  lemma ListingContains(sep: string, heads: seq<string>, texts: seq<string>, j: nat)
    requires j < |heads| == |texts|
    ensures Contains(Listing(sep, heads, texts), heads[j] + texts[j]) && Contains(Listing(sep, heads, texts), texts[j])
  {
    ListingHoldsEveryText(sep, heads, texts, j);
    StandTogether(Listing(sep, heads, texts), heads[j], texts[j], Place(sep, heads, texts, j));
  }

  /** The next text stands behind the one before, the separator and its own heading. */
  lemma {:induction false} PlacesAscend(sep: string, heads: seq<string>, texts: seq<string>, j: nat)
    requires j + 1 < |heads| == |texts|
    ensures Place(sep, heads, texts, j + 1) == Place(sep, heads, texts, j) + |texts[j]| + |sep| + |heads[j + 1]|
    decreases j
  {
    if j > 0 {
      PlacesAscend(sep, heads[1..], texts[1..], j - 1);
    }
  }

  lemma ListingUnfolds(sep: string, heads: seq<string>, texts: seq<string>, laterHeads: seq<string>, laterTexts: seq<string>)
    requires |heads| == |texts| > 0 && |laterHeads| == |laterTexts| == |heads| - 1
    requires forall k :: 0 <= k < |laterHeads| ==> laterHeads[k] == heads[k + 1] && laterTexts[k] == texts[k + 1]
    ensures Listing(sep, heads, texts) ==
            heads[0] + texts[0] + if |texts| == 1 then "" else sep + Listing(sep, laterHeads, laterTexts)
  {
    assert laterHeads == heads[1..] && laterTexts == texts[1..];
  }

  /* ---- Messages in the text of a group ---- */

  function Heading(i: nat): string { "[" + Decimal(i) + "]\n" }

  function Headings(i: nat, n: nat): seq<string> { seq(n, k requires 0 <= k < n => Heading(i + k)) }

  function MessageTexts(ms: seq<Message>): seq<string> { seq(|ms|, k requires 0 <= k < |ms| => ms[k].text) }

  /** The text of a group lists its messages, numbered, in their order: every message stands in it. */
  lemma {:induction false} FormatIsAListing(ms: seq<Message>, i: nat)
    ensures Format(ms, i) == Listing("\n\n", Headings(i, |ms|), MessageTexts(ms))
    decreases |ms|
  {
    if ms != [] {
      FormatIsAListing(ms[1..], i + 1);
      ListingUnfolds("\n\n", Headings(i, |ms|), MessageTexts(ms), Headings(i + 1, |ms| - 1), MessageTexts(ms[1..]));
      assert Headings(i, |ms|)[0] == Heading(i);
    }
  }

  /** The child of a message is its text behind the number one: children determine the messages. */
  lemma ChildIsItsMessage(group: seq<Message>, ordinal: nat, j: nat)
    requires j < |group|
    ensures ChildrenFrom(group, ordinal)[j].text == Heading(1) + group[j].text
    ensures ChildrenFrom(group, ordinal)[j].children == []
  {
    assert Format([group[j]], 1) == Heading(1) + group[j].text + "";
  }

  lemma ChildrenDetermineMessages(group: seq<Message>, other: seq<Message>, m: nat, n: nat, j: nat)
    requires j < |group| && |group| == |other| && ChildrenFrom(group, m) == ChildrenFrom(other, n)
    ensures group[j].text == other[j].text
  {
    ChildIsItsMessage(group, m, j);
    ChildIsItsMessage(other, n, j);
    assert (Heading(1) + group[j].text)[|Heading(1)|..] == group[j].text;
    assert (Heading(1) + other[j].text)[|Heading(1)|..] == other[j].text;
  }

  /** The unit of group `g`: the text of the group, and a child for each message. */
  lemma {:induction false} UnitOfGroup(groups: seq<seq<Message>>, ordinal: nat, g: nat)
    requires g < |groups|
    ensures |UnitsFrom(groups, ordinal)| == |groups|
    ensures
      var u := UnitsFrom(groups, ordinal)[g];
      u.text == Format(groups[g], 1) && exists n: nat :: u.children == ChildrenFrom(groups[g], n)
    decreases |groups|
  {
    if |groups| > 1 {
      UnitOfGroup(groups[1..], ordinal + |groups[0]|, if g == 0 then 0 else g - 1);
    } else {
      assert groups[1..] == [];
    }
    if g == 0 {
      assert UnitsFrom(groups, ordinal)[0].children == ChildrenFrom(groups[0], ordinal);
    }
  }

  /* ---- Expansion and packing lose no text ---- */

  function Texts(us: seq<Unit>): seq<string> { seq(|us|, i requires 0 <= i < |us| => us[i].text) }

  /** The headed pieces of one text, one after the other. */
  predicate Segmented(texts: seq<string>, at: nat, parts: seq<string>) {
    at + |parts| <= |texts| && forall k :: 0 <= k < |parts| ==> texts[at + k] == Header(k + 1, |parts|) + parts[k]
  }

  ghost predicate InPieces(texts: seq<string>, part: string) {
    exists at: nat, parts :: Segmented(texts, at, parts) && Contains(Flatten(parts), part)
  }

  /** The part stands in one of the texts, or in what consecutive headed pieces are the pieces of. */
  ghost predicate Carried(texts: seq<string>, part: string) {
    (exists i :: 0 <= i < |texts| && Contains(texts[i], part)) || InPieces(texts, part)
  }

  lemma CarriedInside(before: seq<string>, texts: seq<string>, after: seq<string>, part: string)
    requires Carried(texts, part)
    ensures Carried(before + texts + after, part)
  {
    var all := before + texts + after;
    if i :| 0 <= i < |texts| && Contains(texts[i], part) {
      assert all[|before| + i] == texts[i];
    } else {
      var at: nat, parts :| Segmented(texts, at, parts) && Contains(Flatten(parts), part);
      assert Segmented(all, |before| + at, parts) by {
        forall k | 0 <= k < |parts| ensures all[|before| + at + k] == Header(k + 1, |parts|) + parts[k] {
          assert all[|before| + at + k] == texts[at + k];
        }
      }
    }
  }

  /** The part stands in the unit, and in one of its children as well if it has any. */
  ghost predicate Holds(u: Unit, part: string)
    decreases u
  {
    Contains(u.text, part) && (u.children != [] ==> exists j :: 0 <= j < |u.children| && Holds(u.children[j], part))
  }

  /** A part of a unit survives expansion, whole or in pieces. */
  lemma {:induction false} ExpandCarries(p: Prompt, us: seq<Unit>, i: nat, part: string)
    requires Expand(p, us).Some? && i < |us| && Holds(us[i], part)
    ensures Carried(Texts(Expand(p, us).value), part)
    decreases us
  {
    var first := if p.Fits(us[0].text) then Some([us[0]]) else Split(p, us[0]);
    var rest := Expand(p, us[1..]);
    if i > 0 {
      ExpandCarries(p, us[1..], i - 1, part);
    } else if p.Fits(us[0].text) {
      assert Contains(Texts(first.value)[0], part);
    } else if us[0].children != [] {
      var j :| 0 <= j < |us[0].children| && Holds(us[0].children[j], part);
      ExpandCarries(p, us[0].children, j, part);
    } else {
      SplitCarries(p, us[0], part);
    }
    CarriedInEither(first.value, rest.value, part);
  }

  lemma CarriedInEither(xs: seq<Unit>, ys: seq<Unit>, part: string)
    requires Carried(Texts(xs), part) || Carried(Texts(ys), part)
    ensures Carried(Texts(xs + ys), part)
  {
    assert Texts(xs + ys) == [] + Texts(xs) + Texts(ys);
    assert Texts(xs + ys) == Texts(xs) + Texts(ys) + [];
    if Carried(Texts(xs), part) {
      CarriedInside([], Texts(xs), Texts(ys), part);
    } else {
      CarriedInside(Texts(xs), Texts(ys), [], part);
    }
  }

  lemma SplitCarries(p: Prompt, u: Unit, part: string)
    requires u.children == [] && Split(p, u).Some? && Contains(u.text, part)
    ensures Carried(Texts(Split(p, u).value), part)
  {
    var parts := Parts(p, u.text).value;
    PartsAreGreedy(p, u.text);
    SegmentsAreSegmented(parts, u.keys);
    SegmentedCarries(Texts(Split(p, u).value), parts, u.text, part);
  }

  lemma SegmentsAreSegmented(parts: seq<string>, keys: seq<Key>)
    ensures Segmented(Texts(Segments(parts, keys)), 0, parts)
  {}

  lemma SegmentedCarries(texts: seq<string>, parts: seq<string>, text: string, part: string)
    requires Segmented(texts, 0, parts) && Flatten(parts) == text && Contains(text, part)
    ensures Carried(texts, part)
  {}

  function NoHeads(n: nat): seq<string> { seq(n, _ => "") }

  /** The source of a batch lists the texts of its units, in their order. */
  lemma {:induction false} JoinIsAListing(us: seq<Unit>)
    ensures JoinTexts(us) == Listing("\n\n", NoHeads(|us|), Texts(us))
    decreases |us|
  {
    if us != [] {
      JoinIsAListing(us[1..]);
      ListingUnfolds("\n\n", NoHeads(|us|), Texts(us), NoHeads(|us| - 1), Texts(us[1..]));
      assert "" + us[0].text == us[0].text;
      assert |us| > 1 ==> us[0].text + ("\n\n" + JoinTexts(us[1..])) == JoinTexts(us);
    }
  }

  lemma JoinHoldsEveryUnit(us: seq<Unit>, i: nat)
    requires i < |us|
    ensures Contains(JoinTexts(us), us[i].text)
  {
    JoinIsAListing(us);
    ListingContains("\n\n", NoHeads(|us|), Texts(us), i);
  }

  lemma ContainsIsTransitive(text: string, middle: string, part: string)
    requires Contains(text, middle) && Contains(middle, part)
    ensures Contains(text, part)
  {
    var a: nat :| StandsAt(text, middle, a);
    var b: nat :| StandsAt(middle, part, b);
    StandsInside(text[..a], middle, text[a + |middle|..], part, b);
    assert text[..a] + middle + text[a + |middle|..] == text;
  }

  /** The part stands in the source of a batch, or the sources of the batches contain the headed pieces
      of a text in which it stands. */
  ghost predicate Sent(batches: seq<seq<Unit>>, part: string) {
    InABatch(batches, part) || exists parts :: PiecesSent(batches, parts) && Contains(Flatten(parts), part)
  }

  ghost predicate InABatch(batches: seq<seq<Unit>>, part: string) {
    exists b :: b in batches && Contains(JoinTexts(b), part)
  }

  ghost predicate PiecesSent(batches: seq<seq<Unit>>, parts: seq<string>) {
    forall k :: 0 <= k < |parts| ==> InABatch(batches, Header(k + 1, |parts|) + parts[k])
  }

  lemma UnitIsSent(batches: seq<seq<Unit>>, u: Unit)
    requires u in Flatten(batches)
    ensures InABatch(batches, u.text)
  {
    InSomeBatch(batches);
    var b :| b in batches && u in b;
    var i :| 0 <= i < |b| && b[i] == u;
    JoinHoldsEveryUnit(b, i);
  }

  lemma InABatchIsTransitive(batches: seq<seq<Unit>>, middle: string, part: string)
    requires InABatch(batches, middle) && Contains(middle, part)
    ensures InABatch(batches, part)
  {
    var b :| b in batches && Contains(JoinTexts(b), middle);
    ContainsIsTransitive(JoinTexts(b), middle, part);
  }

  lemma CarriedIsSent(batches: seq<seq<Unit>>, part: string)
    requires Carried(Texts(Flatten(batches)), part)
    ensures Sent(batches, part)
  {
    var us := Flatten(batches);
    if i :| 0 <= i < |us| && Contains(Texts(us)[i], part) {
      UnitIsSent(batches, us[i]);
      InABatchIsTransitive(batches, us[i].text, part);
    } else {
      var at: nat, parts :| Segmented(Texts(us), at, parts) && Contains(Flatten(parts), part);
      forall k | 0 <= k < |parts| ensures InABatch(batches, Header(k + 1, |parts|) + parts[k]) {
        assert Texts(us)[at + k] == us[at + k].text;
        UnitIsSent(batches, us[at + k]);
      }
      assert PiecesSent(batches, parts);
    }
  }

  /* ---- What the executor sends ---- */

  lemma GroupHoldsItsMessages(groups: seq<seq<Message>>, g: nat, j: nat)
    requires g < |groups| && j < |groups[g]|
    ensures g < |SourceOf(groups)| && Holds(SourceOf(groups)[g], groups[g][j].text)
  {
    UnitOfGroup(groups, 0, g);
    var u := SourceOf(groups)[g];
    FormatIsAListing(groups[g], 1);
    ListingContains("\n\n", Headings(1, |groups[g]|), MessageTexts(groups[g]), j);
    var n: nat :| u.children == ChildrenFrom(groups[g], n);
    ChildIsItsMessage(groups[g], n, j);
    assert StandsAt(u.children[j].text, groups[g][j].text, |Heading(1)|);
    assert Holds(u.children[j], groups[g][j].text);
  }

  /** A source that is sent whole contains every message. */
  lemma WholeSourceHoldsEveryMessage(groups: seq<seq<Message>>, g: nat, j: nat)
    requires g < |groups| && j < |groups[g]|
    ensures Contains(JoinTexts(SourceOf(groups)), groups[g][j].text)
  {
    GroupHoldsItsMessages(groups, g, j);
    JoinHoldsEveryUnit(SourceOf(groups), g);
    ContainsIsTransitive(JoinTexts(SourceOf(groups)), SourceOf(groups)[g].text, groups[g][j].text);
  }

  /** Of a source that is mapped every message is sent: in one batch, or cut up, with nothing between
      its pieces but their headers. */
  lemma EveryMessageIsSent(p: Prompt, groups: seq<seq<Message>>, batches: seq<seq<Unit>>, g: nat, j: nat)
    requires Packs(p, SourceOf(groups), batches) && g < |groups| && j < |groups[g]|
    ensures Sent(batches, groups[g][j].text)
  {
    GroupHoldsItsMessages(groups, g, j);
    ExpandCarries(p, SourceOf(groups), g, groups[g][j].text);
    CarriedIsSent(batches, groups[g][j].text);
  }

  function SummaryHeading(i: nat): string { "Intermediate summary " + Decimal(i) + ":\n" }

  function SummaryHeadings(i: nat, n: nat): seq<string> { seq(n, k requires 0 <= k < n => SummaryHeading(i + k)) }

  /** A final source lists the summaries of its level, numbered, in their order. */
  lemma {:induction false} NumberedIsAListing(summaries: seq<string>, i: nat)
    ensures Numbered(summaries, i) == Listing("\n\n", SummaryHeadings(i, |summaries|), summaries)
    decreases |summaries|
  {
    if summaries != [] {
      NumberedIsAListing(summaries[1..], i + 1);
      ListingUnfolds("\n\n", SummaryHeadings(i, |summaries|), summaries,
                     SummaryHeadings(i + 1, |summaries| - 1), summaries[1..]);
      assert SummaryHeadings(i, |summaries|)[0] == SummaryHeading(i);
    }
  }

  /** Of a level that is reduced further every summary is sent, behind its number. */
  lemma EverySummaryIsSent(p: Prompt, summaries: seq<string>, batches: seq<seq<Unit>>, i: nat)
    requires Packs(p, NumberedUnits(summaries), batches) && i < |summaries|
    ensures Sent(batches, SummaryHeading(i + 1) + summaries[i])
  {
    var u := NumberedUnits(summaries)[i];
    assert u.text == SummaryHeading(i + 1) + summaries[i];
    assert StandsAt(u.text, u.text, 0);
    ExpandCarries(p, NumberedUnits(summaries), i, u.text);
    CarriedIsSent(batches, u.text);
  }

  /** The part stands in what one call is sent, or in pieces that are sent behind their headers. */
  ghost predicate Called(calls: seq<Call>, part: string) {
    InACall(calls, part) || exists parts :: PiecesCalled(calls, parts) && Contains(Flatten(parts), part)
  }

  ghost predicate InACall(calls: seq<Call>, part: string) { exists c :: c in calls && Contains(c.source, part) }

  ghost predicate PiecesCalled(calls: seq<Call>, parts: seq<string>) {
    forall k :: 0 <= k < |parts| ==> InACall(calls, Header(k + 1, |parts|) + parts[k])
  }

  lemma BatchIsCalled(model: Model, calls: seq<Call>, at: nat, batches: seq<seq<Unit>>, answers: seq<string>, part: string)
    requires Mapped(model, calls, at, batches, answers) && InABatch(batches, part)
    ensures InACall(calls, part)
  {
    var b :| b in batches && Contains(JoinTexts(b), part);
    var i :| 0 <= i < |batches| && batches[i] == b;
    assert calls[at + i] in calls;
  }

  lemma SentIsCalled(model: Model, calls: seq<Call>, at: nat, batches: seq<seq<Unit>>, answers: seq<string>, part: string)
    requires Mapped(model, calls, at, batches, answers) && Sent(batches, part)
    ensures Called(calls, part)
  {
    if InABatch(batches, part) {
      BatchIsCalled(model, calls, at, batches, answers, part);
    } else {
      var parts :| PiecesSent(batches, parts) && Contains(Flatten(parts), part);
      forall k | 0 <= k < |parts| ensures InACall(calls, Header(k + 1, |parts|) + parts[k]) {
        BatchIsCalled(model, calls, at, batches, answers, Header(k + 1, |parts|) + parts[k]);
      }
      assert PiecesCalled(calls, parts);
    }
  }

  /** A summary that went through map and reduce has called the model with every source message and
      with every intermediate summary. */
  lemma SummaryCallsEverything(e: ContextSummaryExecutor, groups: seq<seq<Message>>, model: Model, answer: string,
                               calls: seq<Call>, levels: seq<seq<string>>, starts: seq<nat>)
    requires e.Concludes(SourceOf(groups), model, answer, calls, levels, starts)
    ensures forall g, j :: 0 <= g < |groups| && 0 <= j < |groups[g]| ==> Called(calls, groups[g][j].text)
    ensures forall l, i :: 0 <= l < |levels| && 0 <= i < |levels[l]| ==> Called(calls, SummaryHeading(i + 1) + levels[l][i])
  {
    forall g, j | 0 <= g < |groups| && 0 <= j < |groups[g]| ensures Called(calls, groups[g][j].text) {
      var batches :| Packs(e.mapPrompt, SourceOf(groups), batches) && Mapped(model, calls, 0, batches, levels[0]);
      EveryMessageIsSent(e.mapPrompt, groups, batches, g, j);
      SentIsCalled(model, calls, 0, batches, levels[0], groups[g][j].text);
    }
    forall l, i | 0 <= l < |levels| && 0 <= i < |levels[l]| ensures Called(calls, SummaryHeading(i + 1) + levels[l][i]) {
      if l < |starts| {
        var batches :| Packs(e.mapPrompt, NumberedUnits(levels[l]), batches)
                       && Mapped(model, calls, starts[l], batches, levels[l + 1]);
        EverySummaryIsSent(e.mapPrompt, levels[l], batches, i);
        SentIsCalled(model, calls, starts[l], batches, levels[l + 1], SummaryHeading(i + 1) + levels[l][i]);
      } else {
        FinalCallHoldsEverySummary(calls, levels[l], i);
      }
    }
  }

  lemma FinalCallHoldsEverySummary(calls: seq<Call>, summaries: seq<string>, i: nat)
    requires calls != [] && calls[|calls| - 1] == Call(Final, Numbered(summaries, 1)) && i < |summaries|
    ensures Called(calls, SummaryHeading(i + 1) + summaries[i])
  {
    SummaryStands(summaries, 1, i);
    LastCallIsACall(calls, Numbered(summaries, 1), SummaryHeading(i + 1) + summaries[i]);
  }

  lemma {:induction false} SummaryStands(summaries: seq<string>, from: nat, i: nat)
    requires i < |summaries|
    ensures Contains(Numbered(summaries, from), SummaryHeading(i + from) + summaries[i])
    decreases i
  {
    var head, later := SummaryHeading(from), if |summaries| == 1 then "" else "\n\n" + Numbered(summaries[1..], from + 1);
    assert Numbered(summaries, from) == head + summaries[0] + later;
    if i == 0 {
      StandsFirst(head + summaries[0], later);
    } else {
      SummaryStands(summaries[1..], from + 1, i - 1);
      StandsLater(head + summaries[0], "\n\n", Numbered(summaries[1..], from + 1), SummaryHeading(i + from) + summaries[i]);
    }
  }

  lemma StandsFirst(part: string, rest: string)
    ensures Contains(part + rest, part)
  {
    assert StandsAt(part + rest, part, 0);
  }

  lemma StandsLater(before: string, sep: string, text: string, part: string)
    requires Contains(text, part)
    ensures Contains(before + (sep + text), part)
  {
    var at: nat :| StandsAt(text, part, at);
    StandsInside(before + sep, text, "", part, at);
    assert before + sep + text + "" == before + (sep + text);
  }

  lemma LastCallIsACall(calls: seq<Call>, source: string, part: string)
    requires calls != [] && calls[|calls| - 1].source == source && Contains(source, part)
    ensures Called(calls, part)
  {
    assert calls[|calls| - 1] in calls;
    assert InACall(calls, part);
  }

  /** Headers tell the pieces of a text apart, and so do keys the messages without an id. */
  lemma HeadersDiffer(i: nat, j: nat, total: nat)
    requires Header(i, total) == Header(j, total)
    ensures i == j
  {
    var h, before, after := Header(i, total), |"Source segment "|, |"/" + Decimal(total) + ":\n"|;
    assert h[before..|h| - after] == Decimal(i);
    assert h[before..|h| - after] == Decimal(j);
    DecimalReads(i);
    DecimalReads(j);
  }

  lemma KeysTellMessagesApart(m: Message, n: Message, i: nat, j: nat)
    ensures m.id != "" ==> KeyOf(m, i) == m.id
    ensures m.id == "" && n.id == "" && KeyOf(m, i) == KeyOf(n, j) ==> i == j
  {
    if m.id == "" && n.id == "" && KeyOf(m, i) == KeyOf(n, j) {
      assert KeyOf(m, i)[|"ordinal:"|..] == Decimal(i) && KeyOf(n, j)[|"ordinal:"|..] == Decimal(j);
      DecimalReads(i);
      DecimalReads(j);
    }
  }
}
