/** How a source that is too long for one summary prompt is cut up and packed, and the map/reduce
    around it (src/core/context/summary_executor.py; the estimate of src/core/context/budget.py). */
module SummaryUnits {
  import opened Common

  /* ---- The estimate ---- */

  /** Bytes of one character in compact JSON, UTF-8 encoded, non-ASCII left as it is. */
  function CharWidth(c: char): (w: nat)
    ensures 1 <= w <= 6
  {
    var n := c as int;
    if c in {'"', '\\', '\n', '\r', '\t'} || n == 8 || n == 12 then 2
    else if n < 0x20 then 6
    else if n < 0x80 then 1
    else if n < 0x800 then 2
    else if n < 0x10000 then 3
    else 4
  }

  function Width(text: string): nat {
    if text == "" then 0 else CharWidth(text[0]) + Width(text[1..])
  }

  /** `count_value`: a third of the bytes, rounded up, and a fixed overhead. */
  function Tokens(bytes: nat): nat { Max(1, (bytes + 2) / 3 + 8) }

  /** Everything of a summary prompt but its source, and the input limit of the phase. */
  datatype Prompt = Prompt(base: nat, limit: nat)
  {
    predicate Fits(text: string) { Tokens(base + Width(text)) <= limit }
  }

  lemma {:induction false} WidthOfConcat(a: string, b: string)
    ensures Width(a + b) == Width(a) + Width(b)
  {
    if a == "" {
      assert a + b == b;
    } else {
      assert (a + b)[1..] == a[1..] + b;
      WidthOfConcat(a[1..], b);
    }
  }

  /** What fits still fits when text is cut off on either side. */
  lemma FitsIsClosed(p: Prompt, text: string, a: nat, b: nat)
    requires p.Fits(text) && a <= b <= |text|
    ensures p.Fits(text[a..b])
  {
    WidthOfConcat(text[..a], text[a..b]);
    WidthOfConcat(text[..b], text[b..]);
    assert text[..a] + text[a..b] == text[..b] && text[..b] + text[b..] == text;
  }

  /* ---- Greedy cutting, for characters and for units ---- */

  /** Closed under non-empty stretches. */
  ghost predicate Closed<T(!new)>(ok: seq<T> -> bool) {
    forall s, a, b {:trigger ok(s[a..b])} :: ok(s) && 0 <= a < b <= |s| ==> ok(s[a..b])
  }

  ghost predicate Pieces<T(!new)>(ok: seq<T> -> bool, pieces: seq<seq<T>>) {
    forall i :: 0 <= i < |pieces| ==> pieces[i] != [] && ok(pieces[i])
  }

  ghost predicate Cuts<T(!new)>(ok: seq<T> -> bool, s: seq<T>, pieces: seq<seq<T>>) {
    Flatten(pieces) == s && Pieces(ok, pieces)
  }

  /** No piece could have taken the next element as well. */
  ghost predicate Greedy<T(!new)>(ok: seq<T> -> bool, pieces: seq<seq<T>>) {
    forall i {:trigger pieces[i]} :: 0 <= i < |pieces| - 1 && pieces[i + 1] != [] ==> !ok(pieces[i] + [pieces[i + 1][0]])
  }

  /** Greedy cutting uses the fewest pieces, even against cuts of a longer sequence. */
  lemma {:induction false} GreedyIsShortest<T(!new)>(
      ok: seq<T> -> bool, ahead: seq<T>, s: seq<T>, pieces: seq<seq<T>>, other: seq<seq<T>>)
    requires Closed(ok) && Cuts(ok, s, pieces) && Greedy(ok, pieces) && Cuts(ok, ahead + s, other)
    ensures |pieces| <= |other|
    decreases |other|
  {
    if pieces != [] {
      assert s != [] by { assert s[0] == pieces[0][0]; }
      assert other != [];
      var o := other[0];
      var rest := Flatten(other[1..]);
      assert ahead + s == o + rest;
      if |o| <= |ahead| {
        assert rest == ahead[|o|..] + s by { assert (ahead + s)[|o|..] == rest; }
        GreedyIsShortest(ok, ahead[|o|..], s, pieces, other[1..]);
      } else {
        GreedyReaches(ok, ahead, s, pieces, o, rest);
        var n, m := |pieces[0]|, |o| - |ahead|;
        assert Flatten(pieces[1..]) == s[n..];
        assert rest == s[m..] by { assert (ahead + s)[|o|..] == rest; }
        assert s[m..] == s[m..n] + s[n..];
        GreedyIsShortest(ok, s[m..n], s[n..], pieces[1..], other[1..]);
      }
    }
  }

  lemma NextDoesNotFit<T(!new)>(ok: seq<T> -> bool, s: seq<T>, pieces: seq<seq<T>>)
    requires Cuts(ok, s, pieces) && Greedy(ok, pieces) && pieces != [] && |pieces[0]| < |s|
    ensures !ok(s[..|pieces[0]| + 1])
  {
    var n := |pieces[0]|;
    assert s == pieces[0] + Flatten(pieces[1..]);
    assert |pieces| > 1;
    assert s[n] == pieces[1][0] by { assert Flatten(pieces[1..])[0] == pieces[1][0]; }
    assert s[..n + 1] == pieces[0] + [pieces[1][0]];
  }

  lemma PrefixesFit<T(!new)>(ok: seq<T> -> bool, s: seq<T>, m: nat)
    requires Closed(ok) && m <= |s| && ok(s[..m])
    ensures forall k :: 0 < k <= m ==> ok(s[..k])
  {
    forall k | 0 < k <= m ensures ok(s[..k]) {
      assert ok(s[..m][0..k]);
      assert s[..m][0..k] == s[..k];
    }
  }

  /** A first piece reaches at least as far as any other piece that began earlier. */
  lemma GreedyReaches<T(!new)>(ok: seq<T> -> bool, ahead: seq<T>, s: seq<T>, pieces: seq<seq<T>>, o: seq<T>, rest: seq<T>)
    requires Closed(ok) && Cuts(ok, s, pieces) && Greedy(ok, pieces) && pieces != []
    requires ok(o) && ahead + s == o + rest && |o| > |ahead|
    ensures |o| - |ahead| <= |pieces[0]|
  {
    var m := |o| - |ahead|;
    assert o[|ahead|..|o|] == s[..m] by {
      assert forall i :: |ahead| <= i < |o| ==> o[i] == (ahead + s)[i] == s[i - |ahead|];
    }
    assert ok(o[|ahead|..|o|]);
    PrefixesFit(ok, s, m);
    if m > |pieces[0]| {
      NextDoesNotFit(ok, s, pieces);
      assert false;
    }
  }

  /* ---- Source units ---- */

  type Key = string

  datatype Unit = Unit(text: string, keys: seq<Key>, children: seq<Unit>)

  function Keys(us: seq<Unit>): set<Key> { set u, k | u in us && k in u.keys :: k }

  function JoinTexts(us: seq<Unit>): string {
    if us == [] then "" else if |us| == 1 then us[0].text else us[0].text + "\n\n" + JoinTexts(us[1..])
  }

  function Header(i: nat, total: nat): (text: string)
    ensures |text| >= 20
  {
    "Source segment " + Decimal(i) + "/" + Decimal(total) + ":\n"
  }

  /** The longest fitting prefix of at most `n` characters. */
  function LongestFit(p: Prompt, text: string, n: nat): (m: nat)
    requires n <= |text|
    ensures m <= n && (m > 0 ==> p.Fits(text[..m]))
    ensures forall k :: m < k <= n ==> !p.Fits(text[..k])
  {
    if n == 0 || p.Fits(text[..n]) then n else LongestFit(p, text, n - 1)
  }

  /** None: not even one more character fits. */
  function Parts(p: Prompt, text: string): Option<seq<string>>
    decreases |text|
  {
    if text == "" then Some([])
    else
      var n := LongestFit(p, text, |text|);
      if n == 0 then None
      else match Parts(p, text[n..])
        case None => None
        case Some(rest) => Some([text[..n]] + rest)
  }

  function Segments(parts: seq<string>, keys: seq<Key>): seq<Unit> {
    seq(|parts|, i requires 0 <= i < |parts| => Unit(Header(i + 1, |parts|) + parts[i], keys, []))
  }

  function Split(p: Prompt, u: Unit): Option<seq<Unit>>
    decreases u, 1
  {
    if u.children != [] then Expand(p, u.children)
    else match Parts(p, u.text)
      case None => None
      case Some(parts) => Some(Segments(parts, u.keys))
  }

  function Expand(p: Prompt, us: seq<Unit>): Option<seq<Unit>>
    decreases us, 0
  {
    if us == [] then Some([])
    else
      var first := if p.Fits(us[0].text) then Some([us[0]]) else Split(p, us[0]);
      match (first, Expand(p, us[1..]))
      case (Some(a), Some(b)) => Some(a + b)
      case _ => None
  }

  /** Batches of two or more units fit; a single unit is sent as it is. */
  predicate Sendable(p: Prompt, batch: seq<Unit>) { |batch| == 1 || p.Fits(JoinTexts(batch)) }

  /** A header in front of a part that fits. */
  ghost predicate IsSegment(p: Prompt, text: string, i: nat, total: nat, part: string) {
    1 <= i <= total && text == Header(i, total) + part && p.Fits(part)
  }

  ghost predicate Admissible(p: Prompt, text: string) {
    p.Fits(text) || exists i, total, part :: IsSegment(p, text, i, total, part)
  }

  function FitsText(p: Prompt): string -> bool { (text: string) => p.Fits(text) }

  function FitsBatch(p: Prompt): seq<Unit> -> bool { (batch: seq<Unit>) => Sendable(p, batch) }

  lemma FitsTextIsClosed(p: Prompt)
    ensures Closed(FitsText(p))
  {
    forall s: string, a, b | FitsText(p)(s) && 0 <= a < b <= |s| ensures FitsText(p)(s[a..b]) {
      FitsIsClosed(p, s, a, b);
    }
  }

  lemma {:induction false} WidthOfJoin(xs: seq<Unit>, ys: seq<Unit>)
    requires xs != [] && ys != []
    ensures Width(JoinTexts(xs + ys)) == Width(JoinTexts(xs)) + 4 + Width(JoinTexts(ys))
  {
    assert Width("\n\n") == 4 by {
      assert "\n\n"[1..] == "\n" && "\n"[1..] == "";
    }
    if |xs| == 1 {
      assert (xs + ys)[1..] == ys;
      WidthOfConcat(xs[0].text + "\n\n", JoinTexts(ys));
      WidthOfConcat(xs[0].text, "\n\n");
    } else {
      assert (xs + ys)[1..] == xs[1..] + ys;
      WidthOfJoin(xs[1..], ys);
      WidthOfConcat(xs[0].text + "\n\n", JoinTexts(xs[1..] + ys));
      WidthOfConcat(xs[0].text + "\n\n", JoinTexts(xs[1..]));
    }
  }

  lemma PartsAreNarrower(us: seq<Unit>, n: nat)
    requires n <= |us|
    ensures Width(JoinTexts(us[..n])) <= Width(JoinTexts(us)) && Width(JoinTexts(us[n..])) <= Width(JoinTexts(us))
  {
    assert us[..n] + us[n..] == us;
    if 0 < n < |us| {
      WidthOfJoin(us[..n], us[n..]);
    } else if n == 0 {
      assert us[n..] == us && Width(JoinTexts([])) == 0;
    } else {
      assert us[..n] == us && Width(JoinTexts([])) == 0;
    }
  }

  lemma StretchIsNarrower(us: seq<Unit>, a: nat, b: nat)
    requires a < b <= |us|
    ensures Width(JoinTexts(us[a..b])) <= Width(JoinTexts(us))
  {
    PartsAreNarrower(us, b);
    PartsAreNarrower(us[..b], a);
    assert us[..b][a..] == us[a..b];
  }

  lemma FitsBatchIsClosed(p: Prompt)
    ensures Closed(FitsBatch(p))
  {
    forall s: seq<Unit>, a, b | FitsBatch(p)(s) && 0 <= a < b <= |s| ensures FitsBatch(p)(s[a..b]) {
      StretchIsNarrower(s, a, b);
    }
  }

  /** The parts of a text are its text, each fits, and none could be longer. */
  lemma {:induction false} PartsAreGreedy(p: Prompt, text: string)
    requires Parts(p, text).Some?
    ensures Cuts(FitsText(p), text, Parts(p, text).value) && Greedy(FitsText(p), Parts(p, text).value)
    decreases |text|
  {
    if text != "" {
      var n := LongestFit(p, text, |text|);
      PartsAreGreedy(p, text[n..]);
      var rest := Parts(p, text[n..]).value;
      var parts := Parts(p, text).value;
      assert text == text[..n] + text[n..];
      assert Flatten(parts) == parts[0] + Flatten(parts[1..]) && parts[1..] == rest;
      if rest != [] {
        assert Flatten(rest)[0] == rest[0][0];
        assert text[..n] + [rest[0][0]] == text[..n + 1];
      }
      forall i | 0 <= i < |parts| - 1 && parts[i + 1] != [] ensures !FitsText(p)(parts[i] + [parts[i + 1][0]]) {
        if i > 0 {
          assert parts[i] == rest[i - 1] && parts[i + 1] == rest[i];
        }
      }
    }
  }

  /** No cut of a text into fitting parts is shorter. */
  lemma PartsAreFewest(p: Prompt, text: string, other: seq<string>)
    requires Parts(p, text).Some? && Cuts(FitsText(p), text, other)
    ensures |Parts(p, text).value| <= |other|
  {
    FitsTextIsClosed(p);
    PartsAreGreedy(p, text);
    assert [] + text == text;
    GreedyIsShortest(FitsText(p), [], text, Parts(p, text).value, other);
  }

  /** Cutting fails exactly when some character does not fit the prompt even alone. */
  lemma {:induction false} PartsFailExactly(p: Prompt, text: string)
    ensures Parts(p, text).None? <==> exists i :: 0 <= i < |text| && !p.Fits([text[i]])
    decreases |text|
  {
    if text != "" {
      var n := LongestFit(p, text, |text|);
      if n == 0 {
        assert text[..1] == [text[0]];
      } else {
        PartsFailExactly(p, text[n..]);
        forall i | 0 <= i < n ensures p.Fits([text[i]]) {
          FitsIsClosed(p, text[..n], i, i + 1);
          assert text[..n][i..i + 1] == [text[i]];
        }
        assert forall i :: n <= i < |text| ==> text[i] == text[n..][i - n];
      }
    }
  }

  lemma HeaderOverflows(p: Prompt, header: string, part: string, next: char)
    requires |header| >= 20 && !p.Fits(part + [next])
    ensures !p.Fits(header + part)
  {
    WidthOfConcat(header, part);
    WidthOfConcat(part, [next]);
    assert [next][1..] == "";
    WidthIsLong(header);
  }

  lemma PartsFitAlone(p: Prompt, text: string, i: nat)
    requires Parts(p, text).Some? && i < |Parts(p, text).value|
    ensures
      var parts := Parts(p, text).value;
      p.Fits(parts[i]) && (i < |parts| - 1 ==> !p.Fits(Header(i + 1, |parts|) + parts[i]))
  {
    var parts := Parts(p, text).value;
    PartsAreGreedy(p, text);
    assert FitsText(p)(parts[i]);
    if i < |parts| - 1 {
      assert parts[i + 1] != [] && !FitsText(p)(parts[i] + [parts[i + 1][0]]);
      HeaderOverflows(p, Header(i + 1, |parts|), parts[i], parts[i + 1][0]);
    }
  }

  /** The header is added after the fit was tested: each raw part fits, but of a text that is really
      cut up every segment except the last exceeds the limit. */
  lemma SegmentsOverflow(p: Prompt, u: Unit, i: nat)
    requires u.children == [] && Split(p, u).Some? && i < |Split(p, u).value|
    ensures
      var segments, parts := Split(p, u).value, Parts(p, u.text).value;
      && |segments| == |parts| && segments[i].text == Header(i + 1, |parts|) + parts[i]
      && p.Fits(parts[i])
      && (i < |parts| - 1 ==> !p.Fits(segments[i].text))
  {
    PartsFitAlone(p, u.text, i);
  }

  /** Whether everything that is sent for these units will fit: a unit that fits is sent as it is, and
      of a unit that does not only its children, or nothing at all if it has neither them nor text. */
  predicate LeavesFit(p: Prompt, us: seq<Unit>)
    decreases us
  {
    us == [] ||
    (&& (p.Fits(us[0].text) || (if us[0].children != [] then LeavesFit(p, us[0].children) else us[0].text == ""))
     && LeavesFit(p, us[1..]))
  }

  /** A text that does not fit is really cut up. */
  lemma OversizedIsCut(p: Prompt, text: string)
    requires !p.Fits(text) && text != "" && Parts(p, text).Some?
    ensures |Parts(p, text).value| >= 2
  {
    var n := LongestFit(p, text, |text|);
    assert text[..|text|] == text;
    assert n < |text| && text[n..] != "";
  }

  lemma {:induction false} ExpansionFits(p: Prompt, us: seq<Unit>)
    requires Expand(p, us).Some?
    ensures (forall u :: u in Expand(p, us).value ==> p.Fits(u.text)) <==> LeavesFit(p, us)
    decreases us
  {
    if us != [] {
      var u := us[0];
      var first := if p.Fits(u.text) then Some([u]) else Split(p, u);
      var rest := Expand(p, us[1..]).value;
      ExpansionFits(p, us[1..]);
      assert forall v :: v in Expand(p, us).value <==> v in first.value || v in rest;
      if !p.Fits(u.text) {
        if u.children != [] {
          ExpansionFits(p, u.children);
        } else if u.text != "" {
          OversizedIsCut(p, u.text);
          SegmentsOverflow(p, u, 0);
          assert first.value[0] in first.value;
        }
      }
    }
  }

  /** The exact condition of the input limit: every batch that is sent fits if and only if every unit
      fits, or is taken apart into children for which the same holds, or has no text. */
  lemma EverythingFitsExactly(p: Prompt, units: seq<Unit>, batches: seq<seq<Unit>>)
    requires Packs(p, units, batches)
    ensures (forall b :: b in batches ==> p.Fits(JoinTexts(b))) <==> LeavesFit(p, units)
  {
    ExpansionFits(p, units);
    forall b: seq<Unit> | b in batches ensures p.Fits(JoinTexts(b)) <==> forall u :: u in b ==> p.Fits(u.text) {
      var i :| 0 <= i < |batches| && batches[i] == b;
      assert FitsBatch(p)(batches[i]) && b != [];
      BatchFitsItsUnits(p, b);
    }
    InSomeBatch(batches);
  }

  lemma BatchFitsItsUnits(p: Prompt, b: seq<Unit>)
    requires b != [] && Sendable(p, b)
    ensures p.Fits(JoinTexts(b)) <==> forall u :: u in b ==> p.Fits(u.text)
  {
    if p.Fits(JoinTexts(b)) {
      forall u | u in b ensures p.Fits(u.text) {
        var i :| 0 <= i < |b| && b[i] == u;
        StretchIsNarrower(b, i, i + 1);
        assert b[i..i + 1] == [u];
      }
    } else {
      assert b[0] in b && JoinTexts(b) == b[0].text;
    }
  }

  lemma {:induction false} InSomeBatch<T(!new)>(xss: seq<seq<T>>)
    ensures forall x :: x in Flatten(xss) <==> exists xs :: xs in xss && x in xs
  {
    if xss != [] {
      InSomeBatch(xss[1..]);
      assert xss == [xss[0]] + xss[1..];
    }
  }

  /** Nothing is left of these units: none fits, and they end in leaves without text. */
  predicate Vanishes(p: Prompt, us: seq<Unit>)
    decreases us
  {
    us == [] ||
    (&& !p.Fits(us[0].text) && (if us[0].children != [] then Vanishes(p, us[0].children) else us[0].text == "")
     && Vanishes(p, us[1..]))
  }

  lemma {:induction false} VanishesExactly(p: Prompt, us: seq<Unit>)
    ensures Expand(p, us) == Some([]) <==> Vanishes(p, us)
    decreases us
  {
    if us != [] {
      VanishesExactly(p, us[1..]);
      if !p.Fits(us[0].text) && us[0].children != [] {
        VanishesExactly(p, us[0].children);
      }
    }
  }

  /** For every prompt that admits a character there are texts it is broken by: a message of more
      than three times as many letters as the limit has tokens is cut into fitting parts, and some
      batch that is sent for it exceeds the limit. */
  lemma LongMessageOverflows(p: Prompt, n: nat, batches: seq<seq<Unit>>)
    requires p.Fits("a") && n > 3 * p.limit && Packs(p, [Unit(Letters(n), [], [])], batches)
    ensures Parts(p, Letters(n)).Some? && |Parts(p, Letters(n)).value| >= 2
    ensures exists b :: b in batches && !p.Fits(JoinTexts(b))
  {
    LongTextIsCut(p, n);
    EverythingFitsExactly(p, [Unit(Letters(n), [], [])], batches);
  }

  function Letters(n: nat): string { seq(n, _ => 'a') }

  lemma LongTextIsCut(p: Prompt, n: nat)
    requires p.Fits("a") && n > 3 * p.limit
    ensures !p.Fits(Letters(n)) && Parts(p, Letters(n)).Some? && |Parts(p, Letters(n)).value| >= 2
    ensures Expand(p, [Unit(Letters(n), [], [])]).Some? && !LeavesFit(p, [Unit(Letters(n), [], [])])
  {
    var text := Letters(n);
    WidthIsLong(text);
    PartsFailExactly(p, text);
    OversizedIsCut(p, text);
    assert [Unit(text, [], [])][1..] == [];
  }

  lemma {:induction false} WidthIsLong(text: string)
    ensures |text| <= Width(text)
  {
    if text != "" {
      WidthIsLong(text[1..]);
    }
  }

  /* ---- Order and coverage ---- */

  /** Leaves hold text for their keys; a group's keys are those of its children. */
  predicate WellBuilt(us: seq<Unit>)
    decreases us
  {
    us == [] ||
    (&& (if us[0].children == [] then us[0].text != "" || us[0].keys == []
         else Keys(us[0].children) == Keys([us[0]]) && WellBuilt(us[0].children))
     && WellBuilt(us[1..]))
  }

  lemma KeysOfConcat(xs: seq<Unit>, ys: seq<Unit>)
    ensures Keys(xs + ys) == Keys(xs) + Keys(ys)
  {
    assert forall u :: u in xs + ys <==> u in xs || u in ys;
  }

  lemma SegmentsKeepKeys(p: Prompt, u: Unit)
    requires Parts(p, u.text).Some? && (u.text != "" || u.keys == [])
    ensures Keys(Segments(Parts(p, u.text).value, u.keys)) == Keys([u])
  {
    var parts := Parts(p, u.text).value;
    var segments := Segments(parts, u.keys);
    assert u in [u];
    assert forall s :: s in segments ==> s.keys == u.keys;
    if u.text != "" {
      assert segments[0] in segments;
    }
  }

  /** Expansion keeps the order of the units, and every unit keeps exactly its keys: the `i`-th unit
      becomes the `i`-th chunk. */
  lemma {:induction false} ExpandKeepsKeys(p: Prompt, us: seq<Unit>) returns (chunks: seq<seq<Unit>>)
    requires WellBuilt(us) && Expand(p, us).Some?
    ensures |chunks| == |us| && Flatten(chunks) == Expand(p, us).value
    ensures forall i :: 0 <= i < |us| ==> Keys(chunks[i]) == Keys([us[i]])
    ensures Keys(Expand(p, us).value) == Keys(us)
    decreases us
  {
    if us == [] {
      chunks := [];
    } else {
      var u := us[0];
      var first := if p.Fits(u.text) then Some([u]) else Split(p, u);
      if !p.Fits(u.text) {
        if u.children != [] {
          var inner := ExpandKeepsKeys(p, u.children);
        } else {
          SegmentsKeepKeys(p, u);
        }
      }
      var rest := ExpandKeepsKeys(p, us[1..]);
      chunks := [first.value] + rest;
      assert chunks[1..] == rest && us == [u] + us[1..];
      KeysOfConcat(first.value, Expand(p, us[1..]).value);
      KeysOfConcat([u], us[1..]);
    }
  }

  lemma {:induction false} KeysOfBatches(batches: seq<seq<Unit>>)
    ensures Keys(Flatten(batches)) == set batch, u, k | batch in batches && u in batch && k in u.keys :: k
  {
    if batches != [] {
      KeysOfBatches(batches[1..]);
      KeysOfConcat(batches[0], Flatten(batches[1..]));
      assert batches == [batches[0]] + batches[1..];
    }
  }

  /* ---- The executor ---- */

  /** A source message: its id ("" for none) and its text. */
  datatype Message = Message(id: string, text: string)

  /** `format_messages_for_summary`, numbered from `i`. */
  function Format(messages: seq<Message>, i: nat): (text: string)
    ensures messages != [] ==> text != ""
  {
    if messages == [] then ""
    else "[" + Decimal(i) + "]\n" + messages[0].text
         + (if |messages| == 1 then "" else "\n\n" + Format(messages[1..], i + 1))
  }

  function KeyOf(m: Message, ordinal: nat): Key { if m.id != "" then m.id else "ordinal:" + Decimal(ordinal) }

  function KeysFrom(group: seq<Message>, ordinal: nat): seq<Key> {
    seq(|group|, j requires 0 <= j < |group| => KeyOf(group[j], ordinal + j))
  }

  function ChildrenFrom(group: seq<Message>, ordinal: nat): seq<Unit> {
    seq(|group|, j requires 0 <= j < |group| => Unit(Format([group[j]], 1), [KeyOf(group[j], ordinal + j)], []))
  }

  function UnitsFrom(groups: seq<seq<Message>>, ordinal: nat): seq<Unit> {
    if groups == [] then []
    else [Unit(Format(groups[0], 1), KeysFrom(groups[0], ordinal), ChildrenFrom(groups[0], ordinal))]
         + UnitsFrom(groups[1..], ordinal + |groups[0]|)
  }

  /** The units of a source given in groups; messages without an id are keyed by their number. */
  function SourceOf(groups: seq<seq<Message>>): seq<Unit> {
    if groups == [] then [Unit("", [], [])] else UnitsFrom(groups, 0)
  }

  lemma {:induction false} LeavesAreWellBuilt(us: seq<Unit>)
    requires forall i :: 0 <= i < |us| ==> us[i].children == [] && us[i].text != ""
    ensures WellBuilt(us)
    decreases |us|
  {
    if us != [] {
      LeavesAreWellBuilt(us[1..]);
    }
  }

  lemma ChildrenCarryKeys(group: seq<Message>, ordinal: nat)
    ensures Keys(ChildrenFrom(group, ordinal)) == set k | k in KeysFrom(group, ordinal)
  {
    var children, keys := ChildrenFrom(group, ordinal), KeysFrom(group, ordinal);
    forall k | k in keys ensures k in Keys(children) {
      var j :| 0 <= j < |keys| && keys[j] == k;
      assert children[j] in children && k in children[j].keys;
    }
    forall k | k in Keys(children) ensures k in keys {
      var u :| u in children && k in u.keys;
      var j :| 0 <= j < |children| && children[j] == u;
      assert keys[j] == k;
    }
  }

  lemma GroupIsWellBuilt(group: seq<Message>, ordinal: nat)
    ensures
      var u := Unit(Format(group, 1), KeysFrom(group, ordinal), ChildrenFrom(group, ordinal));
      Keys(u.children) == Keys([u]) && WellBuilt(u.children)
  {
    var u := Unit(Format(group, 1), KeysFrom(group, ordinal), ChildrenFrom(group, ordinal));
    ChildrenCarryKeys(group, ordinal);
    LeavesAreWellBuilt(u.children);
    assert Keys([u]) == set k | k in u.keys by { assert u in [u]; }
  }

  /** Built units satisfy what coverage needs: every group carries exactly its messages' keys. */
  lemma {:induction false} SourceIsWellBuilt(groups: seq<seq<Message>>, ordinal: nat)
    ensures WellBuilt(UnitsFrom(groups, ordinal)) && WellBuilt(SourceOf([]))
    decreases |groups|
  {
    if groups != [] {
      GroupIsWellBuilt(groups[0], ordinal);
      SourceIsWellBuilt(groups[1..], ordinal + |groups[0]|);
    }
  }

  /** Why a summary fails; a thread pool for no batches at all is a ValueError. */
  datatype Error = FixedPromptTooLarge | NothingToSend | IncompleteCoverage | ReduceTooDeep | NoReduction | ModelFailed

  datatype Phase = Map | Final

  datatype Call = Call(phase: Phase, source: string)

  /** What the model answers to the n-th call; None is a failure or an empty answer. */
  type Model = (nat, Call) -> Option<string>

  /** `_numbered_summaries`. */
  function Numbered(summaries: seq<string>, i: nat): string {
    if summaries == [] then ""
    else "Intermediate summary " + Decimal(i) + ":\n" + summaries[0]
         + (if |summaries| == 1 then "" else "\n\n" + Numbered(summaries[1..], i + 1))
  }

  function NumberedUnits(summaries: seq<string>): seq<Unit> {
    seq(|summaries|, i requires 0 <= i < |summaries| =>
      Unit("Intermediate summary " + Decimal(i + 1) + ":\n" + summaries[i], [Decimal(i + 1)], []))
  }

  /** `count_value` of a list of texts: brackets, quotes, and commas between the texts. */
  function Volume(texts: seq<string>): nat { Tokens(ListWidth(texts)) }

  function ListWidth(texts: seq<string>): nat {
    if texts == [] then 2
    else if |texts| == 1 then Width(texts[0]) + 4
    else Width(texts[0]) + 3 + ListWidth(texts[1..])
  }

  /** One executor with the prompts of one `summarize` call. */
  class ContextSummaryExecutor {
    const mapPrompt: Prompt
    const finalPrompt: Prompt

    constructor (mapPrompt: Prompt, finalPrompt: Prompt)
      ensures this.mapPrompt == mapPrompt && this.finalPrompt == finalPrompt
    {
      this.mapPrompt, this.finalPrompt := mapPrompt, finalPrompt;
    }

    /** Every call respects its phase: a final source fits; a map source fits or is one segment
        that fitted before it got its header. */
    ghost predicate Proper(call: Call) {
      match call.phase
      case Final => finalPrompt.Fits(call.source)
      case Map => Admissible(mapPrompt, call.source)
    }

    /** The keys and children of one group. */
    method GroupUnits(group: seq<Message>, first: nat) returns (keys: seq<Key>, children: seq<Unit>)
      ensures keys == KeysFrom(group, first) && children == ChildrenFrom(group, first)
    {
      keys, children := [], [];
      var ordinal := first;
      for m := 0 to |group|
        invariant ordinal == first + m
        invariant keys == KeysFrom(group, first)[..m] && children == ChildrenFrom(group, first)[..m]
      {
        var key := KeyOf(group[m], ordinal);
        keys, children := keys + [key], children + [Unit(Format([group[m]], 1), [key], [])];
        ordinal := ordinal + 1;
      }
    }

    /** `_source_units`. */
    method SourceUnits(groups: seq<seq<Message>>) returns (units: seq<Unit>)
      ensures units == SourceOf(groups)
    {
      units := [];
      var ordinal: nat := 0;
      for g := 0 to |groups|
        invariant units + UnitsFrom(groups[g..], ordinal) == UnitsFrom(groups, 0)
      {
        assert groups[g..][1..] == groups[g + 1..];
        var keys, children := GroupUnits(groups[g], ordinal);
        ordinal := ordinal + |groups[g]|;
        units := units + [Unit(Format(groups[g], 1), keys, children)];
      }
      if units == [] {
        units := [Unit("", [], [])];
      }
    }

    /** The binary search for the longest fitting prefix. */
    static method LongestPrefix(p: Prompt, remaining: string) returns (best: nat)
      ensures best == LongestFit(p, remaining, |remaining|)
    {
      var low, high: int := 1, |remaining|;
      best := 0;
      while low <= high
        invariant 1 <= low <= high + 1 <= |remaining| + 1 && best == low - 1
        invariant best > 0 ==> p.Fits(remaining[..best])
        invariant high < |remaining| ==> !p.Fits(remaining[..high + 1])
      {
        var middle := (low + high) / 2;
        if p.Fits(remaining[..middle]) {
          best, low := middle, middle + 1;
        } else {
          high := middle - 1;
        }
      }
      LongestFitIsBoundary(p, remaining, best);
    }

    /** `_split_oversized_unit`. */
    method SplitOversizedUnit(u: Unit, p: Prompt) returns (units: Option<seq<Unit>>)
      ensures units == Split(p, u)
      decreases u, 1
    {
      if u.children != [] {
        units := ExpandUnits(u.children, p);
        return;
      }
      var remaining, parts := u.text, [];
      while remaining != ""
        invariant Parts(p, u.text).Some? <==> Parts(p, remaining).Some?
        invariant Parts(p, remaining).Some? ==> Parts(p, u.text).value == parts + Parts(p, remaining).value
        decreases |remaining|
      {
        var best := LongestPrefix(p, remaining);
        if best == 0 {
          return None;
        }
        parts, remaining := parts + [remaining[..best]], remaining[best..];
      }
      assert parts + [] == parts;
      units := Some(Segments(parts, u.keys));
    }

    /** The loop over units or children that keeps what fits and splits the rest. */
    method ExpandUnits(us: seq<Unit>, p: Prompt) returns (expanded: Option<seq<Unit>>)
      ensures expanded == Expand(p, us)
      decreases us, 0
    {
      var done: seq<Unit> := [];
      for i := 0 to |us|
        invariant Expand(p, us).Some? <==> Expand(p, us[i..]).Some?
        invariant Expand(p, us[i..]).Some? ==> Expand(p, us).value == done + Expand(p, us[i..]).value
      {
        ExpandFirst(p, us, i);
        if p.Fits(us[i].text) {
          done := done + [us[i]];
        } else {
          var split := SplitOversizedUnit(us[i], p);
          if split.None? {
            return None;
          }
          done := done + split.value;
        }
      }
      assert us[|us|..] == [] && done + [] == done;
      expanded := Some(done);
    }

    /** `_partition_units`: expand, then pack greedily. */
    method PartitionUnits(units: seq<Unit>, p: Prompt) returns (batches: Option<seq<seq<Unit>>>)
      ensures batches.None? <==> Expand(p, units).None?
      ensures batches.Some? ==> Packs(p, units, batches.value)
    {
      var expanded := ExpandUnits(units, p);
      if expanded.None? {
        return None;
      }
      var packed := Pack(expanded.value, p);
      batches := Some(packed);
    }

    method Pack(units: seq<Unit>, p: Prompt) returns (batches: seq<seq<Unit>>)
      ensures Cuts(FitsBatch(p), units, batches) && Greedy(FitsBatch(p), batches)
    {
      batches := [];
      var current: seq<Unit> := [];
      for i := 0 to |units|
        invariant current == [] ==> batches == []
        invariant Packed(FitsBatch(p), batches, current, units[..i])
      {
        assert units[..i + 1] == units[..i] + [units[i]];
        batches, current := PackNext(batches, current, units[i], p, units[..i]);
      }
      assert units[..|units|] == units;
      PackEnds(p, batches, current, units);
      if current != [] {
        batches := batches + [current];
      }
    }

    /** The body of the packing loop: the next unit joins the open batch or opens another one. */
    static method PackNext(batches: seq<seq<Unit>>, current: seq<Unit>, next: Unit, p: Prompt, ghost done: seq<Unit>)
      returns (closed: seq<seq<Unit>>, open: seq<Unit>)
      requires Packed(FitsBatch(p), batches, current, done) && (current == [] ==> batches == [])
      ensures Packed(FitsBatch(p), closed, open, done + [next]) && open != []
    {
      PackStep(p, batches, current, done, next);
      var candidate := current + [next];
      if current != [] && !p.Fits(JoinTexts(candidate)) {
        closed, open := batches + [current], [next];
      } else {
        closed, open := batches, candidate;
      }
    }

    /** Why a summary fails.  Incomplete coverage is never a reason. */
    ghost predicate Fails(error: Error, model: Model, calls: seq<Call>, levels: seq<seq<string>>) {
      match error
      case ModelFailed => LastFailed(model, calls)
      case FixedPromptTooLarge => levels != [] && Expand(mapPrompt, NumberedUnits(levels[|levels| - 1])).None?
      case ReduceTooDeep => |levels| == 9 && !finalPrompt.Fits(Numbered(levels[8], 1))
      case NothingToSend => false
      case NoReduction => levels != [] && CannotShrink(mapPrompt, model, calls, levels[|levels| - 1])
      case IncompleteCoverage => false
    }

    /** `_invoke_parallel`: one map call for each batch, the answers in the order of the batches; no
        batches at all are an error. */
    method InvokeParallel(batches: seq<seq<Unit>>, model: Model, earlier: seq<Call>)
      returns (answers: Result<seq<string>, Error>, calls: seq<Call>)
      requires forall b :: b in batches ==> Admissible(mapPrompt, JoinTexts(b))
      ensures earlier <= calls && forall c :: c in calls[|earlier|..] ==> c.phase == Map && Proper(c)
      ensures answers.Ok? ==> batches != [] && Mapped(model, calls, |earlier|, batches, answers.value)
      ensures answers.Err? ==>
                if batches == [] then answers.error == NothingToSend && calls == earlier
                else answers.error == ModelFailed && LastFailed(model, calls)
    {
      calls := earlier;
      if batches == [] {
        return Err(NothingToSend), calls;
      }
      var texts := [];
      for i := 0 to |batches|
        invariant earlier <= calls && |texts| == i == |calls| - |earlier|
        invariant forall c :: c in calls[|earlier|..] ==> c.phase == Map && Proper(c)
        invariant forall k :: 0 <= k < i ==>
                    && calls[|earlier| + k] == Call(Map, JoinTexts(batches[k]))
                    && model(|earlier| + k, calls[|earlier| + k]) == Some(texts[k])
      {
        var call := Call(Map, JoinTexts(batches[i]));
        assert batches[i] in batches;
        var answer := model(|calls|, call);
        calls := calls + [call];
        if answer.None? {
          return Err(ModelFailed), calls;
        }
        texts := texts + [answer.value];
      }
      answers := Ok(texts);
    }

    /** `_reduce`: at most nine levels; the volume strictly shrinks from level to level; the answer
        is that of a final call that fits and numbers every summary of the last level. */
    method Reduce(summaries: seq<string>, model: Model, earlier: seq<Call>)
      returns (r: Result<string, Error>, calls: seq<Call>, ghost levels: seq<seq<string>>, ghost starts: seq<nat>)
      requires summaries != []
      ensures earlier <= calls && forall c :: c in calls[|earlier|..] ==> Proper(c)
      ensures 1 <= |levels| <= 9 && levels[0] == summaries && Reduces(mapPrompt, model, calls, levels, starts)
      ensures r.Ok? ==>
                var last := Call(Final, Numbered(levels[|levels| - 1], 1));
                |calls| > |earlier| && calls[|calls| - 1] == last && model(|calls| - 1, last) == Some(r.value)
      ensures r.Err? ==> Fails(r.error, model, calls, levels)
    {
      var current, level := summaries, 0;
      calls, levels, starts := earlier, [summaries], [];
      while true
        invariant level == |levels| - 1 <= 8 && current == levels[level] != [] && levels[0] == summaries
        invariant Reduces(mapPrompt, model, calls, levels, starts)
        invariant earlier <= calls && forall c :: c in calls[|earlier|..] ==> Proper(c)
        decreases 8 - level
      {
        level := level + 1;
        var source := Numbered(current, 1);
        if finalPrompt.Fits(source) {
          var call := Call(Final, source);
          var answer := model(|calls|, call);
          ReducesStays(mapPrompt, model, calls, calls + [call], levels, starts);
          calls := calls + [call];
          r := if answer.Some? then Ok(answer.value) else Err(ModelFailed);
          return;
        }
        if level > 8 {
          r := Err(ReduceTooDeep);
          return;
        }
        var next;
        next, calls, starts := ShrinkLevel(current, model, calls, earlier, levels, starts);
        if next.Err? {
          r := Err(next.error);
          return;
        }
        current := next.value;
        levels := levels + [current];
      }
    }

    /** The map calls of one level, whose answers have to be smaller than what they summarise. */
    method ShrinkLevel(current: seq<string>, model: Model, made: seq<Call>, ghost earlier: seq<Call>,
                       ghost levels: seq<seq<string>>, ghost starts: seq<nat>)
      returns (next: Result<seq<string>, Error>, calls: seq<Call>, ghost begun: seq<nat>)
      requires earlier <= made && forall c :: c in made[|earlier|..] ==> Proper(c)
      requires levels != [] && levels[|levels| - 1] == current != [] && Reduces(mapPrompt, model, made, levels, starts)
      ensures earlier <= calls && forall c :: c in calls[|earlier|..] ==> Proper(c)
      ensures next.Ok? ==> next.value != [] && Reduces(mapPrompt, model, calls, levels + [next.value], begun)
      ensures next.Err? ==> Reduces(mapPrompt, model, calls, levels, begun) && Fails(next.error, model, calls, levels)
    {
      next, calls := ReduceLevel(current, model, made);
      ReducesStays(mapPrompt, model, made, calls, levels, starts);
      assert calls[|earlier|..] == made[|earlier|..] + calls[|made|..];
      begun := starts;
      if next.Ok? {
        if Volume(next.value) >= Volume(current) {
          assert StandsStill(mapPrompt, model, calls, current, |made|, next.value);
          next := Err(NoReduction);
          return;
        }
        ReducesGrows(mapPrompt, model, calls, levels, starts, |made|, next.value);
        begun := starts + [|made|];
      }
    }

    /** One level of map calls over the numbered summaries. */
    method ReduceLevel(current: seq<string>, model: Model, earlier: seq<Call>)
      returns (next: Result<seq<string>, Error>, calls: seq<Call>)
      requires current != []
      ensures earlier <= calls && forall c :: c in calls[|earlier|..] ==> Proper(c)
      ensures next.Err? ==>
                || (next.error == FixedPromptTooLarge && Expand(mapPrompt, NumberedUnits(current)).None?)
                || (next.error == ModelFailed && LastFailed(model, calls))
      ensures next.Ok? ==>
                next.value != [] && MapsUnits(mapPrompt, model, calls, |earlier|, NumberedUnits(current), next.value)
    {
      var units := NumberedUnits(current);
      var batches := PartitionUnits(units, mapPrompt);
      if batches.None? {
        return Err(FixedPromptTooLarge), earlier;
      }
      BatchesAreAdmissible(mapPrompt, units, batches.value);
      NumberedIsSent(mapPrompt, current);
      assert batches.value != [];
      next, calls := InvokeParallel(batches.value, model, earlier);
    }

    /** `summarize`, for a source given in groups.  A source that fits is sent whole; otherwise its
        packed batches are mapped and the answers reduced.  The coverage check never fires. */
    method Summarize(groups: seq<seq<Message>>, model: Model)
      returns (r: Result<string, Error>, calls: seq<Call>, ghost levels: seq<seq<string>>, ghost starts: seq<nat>)
      ensures forall c :: c in calls ==> Proper(c)
      ensures r.Err? ==> Fails(r.error, model, calls, levels)
                         || (r.error == FixedPromptTooLarge && Expand(mapPrompt, SourceOf(groups)).None?)
                         || r.error == NothingToSend
      ensures r == Err(NothingToSend) <==>
                !finalPrompt.Fits(JoinTexts(SourceOf(groups))) && Vanishes(mapPrompt, SourceOf(groups))
      ensures finalPrompt.Fits(JoinTexts(SourceOf(groups))) ==>
                var call := Call(Final, JoinTexts(SourceOf(groups)));
                calls == [call] && (r.Ok? ==> model(0, call) == Some(r.value))
      ensures !finalPrompt.Fits(JoinTexts(SourceOf(groups))) && r.Ok? ==> Concludes(SourceOf(groups), model, r.value, calls, levels, starts)
    {
      levels, starts := [], [];
      var units := SourceUnits(groups);
      var source := JoinTexts(units);
      VanishesExactly(mapPrompt, units);
      if finalPrompt.Fits(source) {
        var call := Call(Final, source);
        var answer := model(0, call);
        return (if answer.Some? then Ok(answer.value) else Err(ModelFailed)), [call], [], [];
      }
      var batches := PartitionUnits(units, mapPrompt);
      if batches.None? {
        return Err(FixedPromptTooLarge), [], [], [];
      }
      var covered := set batch, u, k | batch in batches.value && u in batch && k in u.keys :: k;
      SourceIsWellBuilt(groups, 0);
      CoverageIsComplete(mapPrompt, units, batches.value);
      if covered != Keys(units) {
        assert false;
        return Err(IncompleteCoverage), [], [], [];
      }
      r, calls, levels, starts := MapReduce(units, batches.value, model);
    }

    /** The answer is that of a final call over the last level, reached from the mapped units. */
    ghost predicate Concludes(units: seq<Unit>, model: Model, answer: string, calls: seq<Call>,
                              levels: seq<seq<string>>, starts: seq<nat>) {
      && 1 <= |levels| <= 9
      && MapsUnits(mapPrompt, model, calls, 0, units, levels[0])
      && Reduces(mapPrompt, model, calls, levels, starts)
      && var last := Call(Final, Numbered(levels[|levels| - 1], 1));
         calls != [] && calls[|calls| - 1] == last && model(|calls| - 1, last) == Some(answer)
    }

    method MapReduce(units: seq<Unit>, batches: seq<seq<Unit>>, model: Model)
      returns (r: Result<string, Error>, calls: seq<Call>, ghost levels: seq<seq<string>>, ghost starts: seq<nat>)
      requires Packs(mapPrompt, units, batches)
      ensures forall c :: c in calls ==> Proper(c)
      ensures r == Err(NothingToSend) <==> Expand(mapPrompt, units) == Some([])
      ensures r.Err? && r.error != NothingToSend ==> Fails(r.error, model, calls, levels)
      ensures r.Ok? ==> Concludes(units, model, r.value, calls, levels, starts)
    {
      BatchesAreAdmissible(mapPrompt, units, batches);
      var answers, mapped := InvokeParallel(batches, model, []);
      assert mapped[0..] == mapped;
      if answers.Err? {
        return Err(answers.error), mapped, [], [];
      }
      assert MapsUnits(mapPrompt, model, mapped, 0, units, answers.value);
      r, calls, levels, starts := Reduce(answers.value, model, mapped);
      MapsUnitsStays(mapPrompt, model, mapped, calls, 0, units, answers.value);
      InEitherPart(mapped, calls);
    }
  }

  lemma NumberedIsSent(p: Prompt, summaries: seq<string>)
    requires summaries != []
    ensures Expand(p, NumberedUnits(summaries)) != Some([])
  {
    VanishesExactly(p, NumberedUnits(summaries));
    assert NumberedUnits(summaries)[0].text[0] == 'I';
  }

  /** Of everything that is sent, only a single segment of a cut text can exceed the limit. */
  lemma BatchesAreAdmissible(p: Prompt, units: seq<Unit>, batches: seq<seq<Unit>>)
    requires Expand(p, units).Some? && Cuts(FitsBatch(p), Expand(p, units).value, batches)
    ensures forall b: seq<Unit> :: b in batches ==> p.Fits(JoinTexts(b)) || (|b| == 1 && Admissible(p, b[0].text))
  {
    ExpandIsAdmissible(p, units);
    forall b: seq<Unit> | b in batches ensures p.Fits(JoinTexts(b)) || (|b| == 1 && Admissible(p, b[0].text)) {
      var i :| 0 <= i < |batches| && batches[i] == b;
      assert FitsBatch(p)(batches[i]);
      InFlatten(batches, i, b[0]);
    }
  }

  lemma {:induction false} InFlatten<T>(xss: seq<seq<T>>, i: nat, x: T)
    requires i < |xss| && x in xss[i]
    ensures x in Flatten(xss)
  {
    if i > 0 {
      InFlatten(xss[1..], i - 1, x);
    }
  }

  lemma {:induction false} ExpandIsAdmissible(p: Prompt, us: seq<Unit>)
    requires Expand(p, us).Some?
    ensures forall u :: u in Expand(p, us).value ==> Admissible(p, u.text)
    decreases us
  {
    if us != [] {
      var u := us[0];
      if !p.Fits(u.text) {
        if u.children != [] {
          ExpandIsAdmissible(p, u.children);
        } else {
          SegmentsAreAdmissible(p, u);
        }
      }
      ExpandIsAdmissible(p, us[1..]);
    }
  }

  lemma SegmentsAreAdmissible(p: Prompt, u: Unit)
    requires u.children == [] && Split(p, u).Some?
    ensures forall s :: s in Split(p, u).value ==> Admissible(p, s.text)
  {
    var segments := Split(p, u).value;
    forall s | s in segments ensures Admissible(p, s.text) {
      var i :| 0 <= i < |segments| && segments[i] == s;
      SegmentsOverflow(p, u, i);
      assert IsSegment(p, s.text, i + 1, |segments|, Parts(p, u.text).value[i]);
    }
  }

  /** Expanding and packing lose no key: the coverage check of `summarize` always holds. */
  lemma CoverageIsComplete(p: Prompt, units: seq<Unit>, batches: seq<seq<Unit>>)
    requires WellBuilt(units) && Expand(p, units).Some?
    requires Cuts(FitsBatch(p), Expand(p, units).value, batches)
    ensures (set batch, u, k | batch in batches && u in batch && k in u.keys :: k) == Keys(units)
  {
    var chunks := ExpandKeepsKeys(p, units);
    KeysOfBatches(batches);
  }

  /** No other contiguous packing of the same units into sendable batches uses fewer of them. */
  lemma BatchesAreFewest(p: Prompt, units: seq<Unit>, batches: seq<seq<Unit>>, other: seq<seq<Unit>>)
    requires Cuts(FitsBatch(p), units, batches) && Greedy(FitsBatch(p), batches)
    requires Cuts(FitsBatch(p), units, other)
    ensures |batches| <= |other|
  {
    FitsBatchIsClosed(p);
    assert [] + units == units;
    GreedyIsShortest(FitsBatch(p), [], units, batches, other);
  }

  /** The expanded units in order, greedily packed. */
  ghost predicate Packs(p: Prompt, units: seq<Unit>, batches: seq<seq<Unit>>) {
    && Expand(p, units).Some?
    && Cuts(FitsBatch(p), Expand(p, units).value, batches) && Greedy(FitsBatch(p), batches)
  }

  /** One map call for each batch, from call number `at` on, and its answer. */
  ghost predicate Mapped(model: Model, calls: seq<Call>, at: nat, batches: seq<seq<Unit>>, answers: seq<string>) {
    && |answers| == |batches| && at + |batches| <= |calls|
    && forall i :: 0 <= i < |batches| ==>
         && calls[at + i] == Call(Map, JoinTexts(batches[i]))
         && model(at + i, calls[at + i]) == Some(answers[i])
  }

  predicate LastFailed(model: Model, calls: seq<Call>) {
    calls != [] && model(|calls| - 1, calls[|calls| - 1]).None?
  }

  /** The answers are those to the packed batches of these units. */
  ghost predicate MapsUnits(p: Prompt, model: Model, calls: seq<Call>, at: nat, units: seq<Unit>, answers: seq<string>) {
    exists batches :: Packs(p, units, batches) && Mapped(model, calls, at, batches, answers)
  }

  /** A level whose answers are not smaller than what they summarise. */
  ghost predicate StandsStill(p: Prompt, model: Model, calls: seq<Call>, current: seq<string>, at: nat, next: seq<string>) {
    MapsUnits(p, model, calls, at, NumberedUnits(current), next) && Volume(next) >= Volume(current)
  }

  ghost predicate CannotShrink(p: Prompt, model: Model, calls: seq<Call>, current: seq<string>) {
    exists at, next :: StandsStill(p, model, calls, current, at, next)
  }

  lemma MapsUnitsStays(p: Prompt, model: Model, calls: seq<Call>, longer: seq<Call>, at: nat, units: seq<Unit>, answers: seq<string>)
    requires MapsUnits(p, model, calls, at, units, answers) && calls <= longer
    ensures MapsUnits(p, model, longer, at, units, answers)
  {
    var batches :| Packs(p, units, batches) && Mapped(model, calls, at, batches, answers);
    assert Mapped(model, longer, at, batches, answers);
  }

  /** Each level maps the numbered summaries of the one before; volumes shrink strictly. */
  ghost predicate Reduces(p: Prompt, model: Model, calls: seq<Call>, levels: seq<seq<string>>, starts: seq<nat>) {
    && |starts| == |levels| - 1
    && (forall i :: 0 <= i < |starts| ==>
          MapsUnits(p, model, calls, starts[i], NumberedUnits(levels[i]), levels[i + 1]))
    && (forall i :: 0 < i < |levels| ==> Volume(levels[i]) < Volume(levels[i - 1]))
  }

  lemma ReducesStays(p: Prompt, model: Model, calls: seq<Call>, longer: seq<Call>, levels: seq<seq<string>>, starts: seq<nat>)
    requires Reduces(p, model, calls, levels, starts) && calls <= longer
    ensures Reduces(p, model, longer, levels, starts)
  {
    forall i | 0 <= i < |starts|
      ensures MapsUnits(p, model, longer, starts[i], NumberedUnits(levels[i]), levels[i + 1])
    {
      MapsUnitsStays(p, model, calls, longer, starts[i], NumberedUnits(levels[i]), levels[i + 1]);
    }
  }

  lemma ReducesGrows(p: Prompt, model: Model, calls: seq<Call>, levels: seq<seq<string>>, starts: seq<nat>,
                     at: nat, next: seq<string>)
    requires levels != [] && Reduces(p, model, calls, levels, starts)
    requires MapsUnits(p, model, calls, at, NumberedUnits(levels[|levels| - 1]), next)
    requires Volume(next) < Volume(levels[|levels| - 1])
    ensures Reduces(p, model, calls, levels + [next], starts + [at])
  {
    var ls, ss := levels + [next], starts + [at];
    forall i | 0 <= i < |ss| ensures MapsUnits(p, model, calls, ss[i], NumberedUnits(ls[i]), ls[i + 1]) {
      if i < |starts| {
        assert ls[i] == levels[i] && ls[i + 1] == levels[i + 1] && ss[i] == starts[i];
      } else {
        assert ls[i] == levels[|levels| - 1] && ls[i + 1] == next && ss[i] == at;
      }
    }
    forall i | 0 < i < |ls| ensures Volume(ls[i]) < Volume(ls[i - 1]) {
      if i < |levels| {
        assert ls[i] == levels[i] && ls[i - 1] == levels[i - 1];
      } else {
        assert ls[i] == next && ls[i - 1] == levels[|levels| - 1];
      }
    }
  }

  lemma InEitherPart(earlier: seq<Call>, calls: seq<Call>)
    requires earlier <= calls
    ensures forall c :: c in calls ==> c in earlier || c in calls[|earlier|..]
  {
    assert calls == earlier + calls[|earlier|..];
  }

  /** The state of the packing loop: closed batches, the open one, and the units packed so far. */
  ghost predicate Packed<T(!new)>(ok: seq<T> -> bool, batches: seq<seq<T>>, current: seq<T>, done: seq<T>) {
    && Flatten(batches) + current == done
    && Pieces(ok, batches) && Greedy(ok, batches)
    && (current != [] ==> ok(current))
    && (batches != [] && current != [] ==> !ok(batches[|batches| - 1] + [current[0]]))
  }

  lemma BatchEnds<T(!new)>(ok: seq<T> -> bool, batches: seq<seq<T>>, current: seq<T>, done: seq<T>)
    requires Packed(ok, batches, current, done) && current != []
    ensures Cuts(ok, done, batches + [current]) && Greedy(ok, batches + [current])
  {
    FlattenAppend(batches, current);
    var all := batches + [current];
    forall i | 0 <= i < |all| - 1 && all[i + 1] != [] ensures !ok(all[i] + [all[i + 1][0]]) {
      if i < |batches| - 1 {
        assert all[i] == batches[i] && all[i + 1] == batches[i + 1];
      }
    }
  }

  lemma BatchCloses<T(!new)>(ok: seq<T> -> bool, batches: seq<seq<T>>, current: seq<T>, done: seq<T>, next: seq<T>)
    requires Packed(ok, batches, current, done) && current != [] && |next| == 1
    requires ok(next) && !ok(current + next)
    ensures Packed(ok, batches + [current], next, done + next)
  {
    BatchEnds(ok, batches, current, done);
    assert [next[0]] == next;
  }

  lemma PackStep(p: Prompt, batches: seq<seq<Unit>>, current: seq<Unit>, done: seq<Unit>, next: Unit)
    requires Packed(FitsBatch(p), batches, current, done) && (current == [] ==> batches == [])
    ensures
      if current != [] && !p.Fits(JoinTexts(current + [next]))
      then Packed(FitsBatch(p), batches + [current], [next], done + [next])
      else Packed(FitsBatch(p), batches, current + [next], done + [next])
  {
    assert FitsBatch(p)([next]);
    if current != [] && !p.Fits(JoinTexts(current + [next])) {
      BatchCloses(FitsBatch(p), batches, current, done, [next]);
    } else {
      assert FitsBatch(p)(current + [next]);
      assert Flatten(batches) + (current + [next]) == done + [next];
    }
  }

  lemma PackEnds(p: Prompt, batches: seq<seq<Unit>>, current: seq<Unit>, done: seq<Unit>)
    requires Packed(FitsBatch(p), batches, current, done) && (current == [] ==> batches == [])
    ensures
      var all := if current == [] then batches else batches + [current];
      Cuts(FitsBatch(p), done, all) && Greedy(FitsBatch(p), all)
  {
    if current != [] {
      BatchEnds(FitsBatch(p), batches, current, done);
    }
  }

  lemma ExpandFirst(p: Prompt, us: seq<Unit>, i: nat)
    requires i < |us|
    ensures
      var first := if p.Fits(us[i].text) then Some([us[i]]) else Split(p, us[i]);
      var rest := Expand(p, us[i + 1..]);
      Expand(p, us[i..]) == if first.Some? && rest.Some? then Some(first.value + rest.value) else None
  {
    assert us[i..][1..] == us[i + 1..] && us[i..][0] == us[i];
  }

  lemma ShorterPrefixFits(p: Prompt, text: string, k: nat, m: nat)
    requires k <= m <= |text| && p.Fits(text[..m])
    ensures p.Fits(text[..k])
  {
    FitsIsClosed(p, text[..m], 0, k);
    assert text[..m][0..k] == text[..k];
  }

  lemma LongestFitIsBoundary(p: Prompt, text: string, best: nat)
    requires best <= |text| && (best > 0 ==> p.Fits(text[..best]))
    requires best < |text| ==> !p.Fits(text[..best + 1])
    ensures best == LongestFit(p, text, |text|)
  {
    var m := LongestFit(p, text, |text|);
    if best < m {
      ShorterPrefixFits(p, text, best + 1, m);
      assert false;
    }
  }
}
