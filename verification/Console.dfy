/** Splitting a serial console log into boot sessions (internal/api/operations.go:282-325). */
module Console {
  import opened Text

  const BOOT_BANNER := "Linux version"

  datatype Session = Session(text: string, partial: bool)

  predicate Banner(line: string) {
    Contains(line, BOOT_BANNER)
  }

  /** A banner line begins a new session; any other line continues the last. */
  function AddLine(before: seq<seq<string>>, line: string): (after: seq<seq<string>>)
    ensures after != []
  {
    if before == [] || Banner(line) then before + [[line]]
    else before[..|before| - 1] + [before[|before| - 1] + [line]]
  }

  /** The lines grouped into sessions. */
  function Groups(lines: seq<string>): (groups: seq<seq<string>>)
    ensures lines != [] ==> groups != []
  {
    if lines == [] then [] else AddLine(Groups(lines[..|lines| - 1]), lines[|lines| - 1])
  }

  function Flat(groups: seq<seq<string>>): seq<string> {
    if groups == [] then [] else Flat(groups[..|groups| - 1]) + groups[|groups| - 1]
  }

  function Banners(lines: seq<string>): nat {
    if lines == [] then 0 else Banners(lines[..|lines| - 1]) + (if Banner(lines[|lines| - 1]) then 1 else 0)
  }

  /** Only the first line of a session can be a banner. */
  predicate OneBoot(g: seq<string>) {
    g != [] && forall i :: 0 < i < |g| ==> !Banner(g[i])
  }

  lemma FlatSnoc(front: seq<seq<string>>, last: seq<string>)
    ensures Flat(front + [last]) == Flat(front) + last
  {
    assert (front + [last])[..|front|] == front;
  }

  lemma FlatAddLine(before: seq<seq<string>>, line: string)
    ensures Flat(AddLine(before, line)) == Flat(before) + [line]
  {
    if before == [] || Banner(line) {
      FlatSnoc(before, [line]);
    } else {
      var front, last := before[..|before| - 1], before[|before| - 1];
      FlatSnoc(front, last + [line]);
    }
  }

  /** The groups are the lines, in order. */
  lemma {:induction false} GroupsAreLines(lines: seq<string>)
    ensures Flat(Groups(lines)) == lines
  {
    if lines != [] {
      GroupsAreLines(lines[..|lines| - 1]);
      FlatAddLine(Groups(lines[..|lines| - 1]), lines[|lines| - 1]);
      assert lines[..|lines| - 1] + [lines[|lines| - 1]] == lines;
    }
  }

  /** Each group is one boot; it begins with a banner unless it is the first. */
  predicate Boots(gs: seq<seq<string>>) {
    (forall i :: 0 <= i < |gs| ==> OneBoot(gs[i])) && forall i :: 0 < i < |gs| ==> Banner(gs[i][0])
  }

  lemma AddLineKeepsBoots(before: seq<seq<string>>, line: string)
    requires Boots(before)
    ensures Boots(AddLine(before, line))
  {
  }

  lemma {:induction false} GroupsAreBoots(lines: seq<string>)
    ensures Boots(Groups(lines))
  {
    if lines != [] {
      GroupsAreBoots(lines[..|lines| - 1]);
      AddLineKeepsBoots(Groups(lines[..|lines| - 1]), lines[|lines| - 1]);
    }
  }

  lemma AddLineCounts(before: seq<seq<string>>, line: string)
    requires before != [] && before[0] != []
    ensures var after := AddLine(before, line);
            && after[0] != [] && after[0][0] == before[0][0]
            && |after| == |before| + (if Banner(line) then 1 else 0)
  {
  }

  /** One group per banner line, plus one if the log does not open with a banner. */
  lemma {:induction false} GroupsCount(lines: seq<string>)
    requires lines != []
    ensures var gs := Groups(lines);
            gs[0] != [] && gs[0][0] == lines[0] && |gs| == Banners(lines) + (if Banner(lines[0]) then 0 else 1)
  {
    var init := lines[..|lines| - 1];
    if init != [] {
      GroupsCount(init);
      AddLineCounts(Groups(init), lines[|lines| - 1]);
    } else {
      assert Groups(init) == [] && Banners(init) == 0;
    }
  }

  /** The text of a group contains the banner exactly when its first line is one. */
  lemma {:induction false} GroupBanner(g: seq<string>)
    requires OneBoot(g)
    ensures Contains(Unlines(g), BOOT_BANNER) <==> Banner(g[0])
  {
    var n := |g| - 1;
    assert !Contains("", BOOT_BANNER);
    ContainsAcrossNewline(g[n], "", BOOT_BANNER);
    assert g[n] + "\n" + "" == g[n] + "\n";
    if n == 0 {
      assert g == [g[0]];
      UnlinesOne(g[0]);
    } else {
      GroupBanner(g[..n]);
      var head := Unlines(g[..n]);
      assert head == Unlines(g[..n - 1]) + g[n - 1] + "\n" by {
        assert g[..n][..n - 1] == g[..n - 1];
      }
      var body := Unlines(g[..n - 1]) + g[n - 1];
      ContainsAcrossNewline(body, "", BOOT_BANNER);
      ContainsAcrossNewline(body, g[n] + "\n", BOOT_BANNER);
      assert body + "\n" + (g[n] + "\n") == Unlines(g);
      assert body + "\n" + "" == head;
    }
  }

  function Texts(groups: seq<seq<string>>): seq<string> {
    seq(|groups|, i requires 0 <= i < |groups| => Unlines(groups[i]))
  }

  function Joined(texts: seq<string>): string {
    if texts == [] then "" else Joined(texts[..|texts| - 1]) + texts[|texts| - 1]
  }

  lemma {:induction false} JoinedIsUnlines(groups: seq<seq<string>>)
    ensures Joined(Texts(groups)) == Unlines(Flat(groups))
  {
    if groups != [] {
      var n := |groups| - 1;
      JoinedIsUnlines(groups[..n]);
      assert Texts(groups)[..n] == Texts(groups[..n]);
      UnlinesConcat(Flat(groups[..n]), groups[n]);
    }
  }

  /** The sessions of a log. A blank log has none. */
  function SessionsOf(text: string): seq<Session> {
    if TrimSpace(text) == "" then []
    else
      var gs := Groups(Lines(text));
      seq(|gs|, i requires 0 <= i < |gs| =>
        Session(Unlines(gs[i]), !Contains(Unlines(gs[i]), BOOT_BANNER)))
  }

  function TextsOf(ss: seq<Session>): seq<string> {
    seq(|ss|, i requires 0 <= i < |ss| => ss[i].text)
  }

  /** The i-th session is whole lines. After the first line no other is a banner; the first line is one unless
      this is the first session, and that session is partial exactly when the log does not open with a banner. */
  predicate IsSession(s: Session, i: nat, opens: bool) {
    var lines := Lines(s.text);
    && |lines| > 1 && lines[|lines| - 1] == ""
    && (forall k :: 0 < k < |lines| ==> !Banner(lines[k]))
    && (Banner(lines[0]) <==> i > 0 || opens)
    && (s.partial <==> i == 0 && !opens)
  }

  /** The session texts concatenate to the log plus one newline; every session after the first begins with
      a banner line and holds no second one; there is one session per banner line, plus one if the log does
      not open with a banner; and a session is partial exactly when it is that leading one. */
  lemma SessionsPartition(text: string)
    requires TrimSpace(text) != ""
    ensures var ss, lines := SessionsOf(text), Lines(text);
            && Joined(TextsOf(ss)) == text + "\n"
            && |ss| == Banners(lines) + (if Banner(lines[0]) then 0 else 1)
            && forall i :: 0 <= i < |ss| ==> IsSession(ss[i], i, Banner(lines[0]))
  {
    var ss, lines := SessionsOf(text), Lines(text);
    var gs := Groups(lines);
    GroupsAreLines(lines);
    GroupsCount(lines);
    JoinedIsUnlines(gs);
    LinesRestore(text);
    assert TextsOf(ss) == Texts(gs);
    forall i | 0 <= i < |ss|
      ensures IsSession(ss[i], i, Banner(lines[0]))
    {
      EachIsSession(text, i);
    }
  }

  predicate AllNewlineFree(gs: seq<seq<string>>) {
    forall i :: 0 <= i < |gs| ==> NewlineFree(gs[i])
  }

  lemma AddLineNewlineFree(before: seq<seq<string>>, line: string)
    requires AllNewlineFree(before) && '\n' !in line
    ensures AllNewlineFree(AddLine(before, line))
  {
    var after := AddLine(before, line);
    assert NewlineFree([line]);
    if before != [] {
      assert NewlineFree(before[|before| - 1] + [line]);
    }
  }

  lemma {:induction false} GroupsNewlineFree(lines: seq<string>)
    requires NewlineFree(lines)
    ensures AllNewlineFree(Groups(lines))
  {
    if lines != [] {
      GroupsNewlineFree(lines[..|lines| - 1]);
      AddLineNewlineFree(Groups(lines[..|lines| - 1]), lines[|lines| - 1]);
    }
  }

  /** The lines of a group's text are the group's lines. */
  lemma BootReadsBack(g: seq<string>)
    requires OneBoot(g) && NewlineFree(g)
    ensures var lines := Lines(Unlines(g));
            && |lines| > 1 && lines[|lines| - 1] == "" && lines[0] == g[0]
            && forall k :: 0 < k < |lines| ==> !Banner(lines[k])
  {
    LinesOfUnlines(g);
    var lines := g + [""];
    assert !Contains("", BOOT_BANNER);
    forall k | 0 < k < |lines| ensures !Banner(lines[k]) {
      assert lines[k] == if k < |g| then g[k] else "";
    }
  }

  lemma EachIsSession(text: string, i: nat)
    requires TrimSpace(text) != "" && i < |SessionsOf(text)|
    ensures IsSession(SessionsOf(text)[i], i, Banner(Lines(text)[0]))
  {
    var gs := Groups(Lines(text));
    GroupsAreBoots(Lines(text));
    GroupsCount(Lines(text));
    GroupBanner(gs[i]);
    LinesHaveNoNewline(text);
    GroupsNewlineFree(Lines(text));
    BootReadsBack(gs[i]);
    assert SessionsOf(text)[i].text == Unlines(gs[i]);
  }

  /** All groups but the last are flushed, the last one is being collected. */
  predicate Collected(gs: seq<seq<string>>, sessions: seq<Session>, cur: string) {
    && cur != ""
    && |sessions| == |gs| - 1
    && cur == Unlines(gs[|gs| - 1])
    && forall j :: 0 <= j < |sessions| ==>
         sessions[j] == Session(Unlines(gs[j]), !Contains(Unlines(gs[j]), BOOT_BANNER))
  }

  lemma CollectFirst(line: string)
    ensures Collected(AddLine([], line), [], line + "\n")
  {
    UnlinesOne(line);
  }

  lemma CollectFlush(before: seq<seq<string>>, line: string, sessions: seq<Session>, cur: string)
    requires before != [] && Banner(line) && Collected(before, sessions, cur)
    ensures Collected(AddLine(before, line), sessions + [Session(cur, !Contains(cur, BOOT_BANNER))], line + "\n")
  {
    UnlinesOne(line);
  }

  lemma CollectMore(before: seq<seq<string>>, line: string, sessions: seq<Session>, cur: string)
    requires before != [] && !Banner(line) && Collected(before, sessions, cur)
    ensures Collected(AddLine(before, line), sessions, cur + line + "\n")
  {
    UnlinesOne(line);
    UnlinesConcat(before[|before| - 1], [line]);
    assert cur + (line + "\n") == cur + line + "\n";
  }

  /** The loop of the source: lines are collected in `cur`, flushed at each banner and at the end. */
  method SplitConsoleSessions(text: string) returns (sessions: seq<Session>)
    ensures sessions == SessionsOf(text)
  {
    if TrimSpace(text) == "" {
      return [];
    }
    sessions := [];
    var cur := "";
    var lines := Lines(text);
    for i := 0 to |lines|
      invariant i == 0 ==> sessions == [] && cur == ""
      invariant i > 0 ==> Collected(Groups(lines[..i]), sessions, cur)
    {
      var line := lines[i];
      ghost var before := Groups(lines[..i]);
      assert lines[..i + 1][..i] == lines[..i];
      if i == 0 {
        CollectFirst(line);
      } else if Banner(line) {
        CollectFlush(before, line, sessions, cur);
      } else {
        CollectMore(before, line, sessions, cur);
      }
      if Contains(line, BOOT_BANNER) {
        if cur != "" {
          sessions := sessions + [Session(cur, !Contains(cur, BOOT_BANNER))];
          cur := "";
        }
      }
      assert "" + line + "\n" == line + "\n";
      cur := cur + line + "\n";
    }
    assert lines[..|lines|] == lines;
    sessions := sessions + [Session(cur, !Contains(cur, BOOT_BANNER))];
  }
}
