/** The string functions the console and annotation code is built from: lines, prefixes, containment, trimming. */
module Text {

  predicate HasPrefix<T(==)>(s: seq<T>, p: seq<T>) {
    |p| <= |s| && s[..|p|] == p
  }

  predicate Contains(s: string, p: string) {
    HasPrefix(s, p) || (s != "" && Contains(s[1..], p))
  }

  /** Splitting at newlines: one line more than there are newlines. */
  function Lines(s: string): (lines: seq<string>)
    ensures lines != []
  {
    if s == "" then [""]
    else if s[0] == '\n' then [""] + Lines(s[1..])
    else
      var rest := Lines(s[1..]);
      [[s[0]] + rest[0]] + rest[1..]
  }

  /** Every line followed by a newline. */
  function Unlines(lines: seq<string>): string {
    if lines == [] then "" else Unlines(lines[..|lines| - 1]) + lines[|lines| - 1] + "\n"
  }

  lemma {:induction false} UnlinesConcat(a: seq<string>, b: seq<string>)
    ensures Unlines(a + b) == Unlines(a) + Unlines(b)
  {
    if b == [] {
      assert a + b == a;
    } else {
      assert (a + b)[..|a + b| - 1] == a + b[..|b| - 1];
      UnlinesConcat(a, b[..|b| - 1]);
    }
  }

  lemma UnlinesOne(line: string)
    ensures Unlines([line]) == line + "\n"
  {
    assert [line][..0] == [];
  }

  lemma UnlinesHead(lines: seq<string>)
    requires lines != []
    ensures Unlines(lines) == lines[0] + "\n" + Unlines(lines[1..])
  {
    assert [lines[0]] + lines[1..] == lines;
    UnlinesConcat([lines[0]], lines[1..]);
    UnlinesOne(lines[0]);
  }

  lemma RestoreBreak(rest: seq<string>, s: string)
    requires rest != [] && Unlines(rest) == s + "\n"
    ensures Unlines([""] + rest) == "\n" + s + "\n"
  {
    UnlinesHead([""] + rest);
    assert ([""] + rest)[1..] == rest;
    assert "" + "\n" + (s + "\n") == "\n" + s + "\n";
  }

  lemma RestoreChar(rest: seq<string>, c: char, s: string)
    requires rest != [] && Unlines(rest) == s + "\n"
    ensures Unlines([[c] + rest[0]] + rest[1..]) == [c] + s + "\n"
  {
    UnlinesHead(rest);
    var lines := [[c] + rest[0]] + rest[1..];
    UnlinesHead(lines);
    assert lines[1..] == rest[1..];
    assert [c] + rest[0] + "\n" + Unlines(rest[1..]) == [c] + (rest[0] + "\n" + Unlines(rest[1..]));
    assert [c] + (s + "\n") == [c] + s + "\n";
  }

  /** Joining the lines restores the text, with a final newline. */
  lemma {:induction false} LinesRestore(s: string)
    ensures Unlines(Lines(s)) == s + "\n"
  {
    if s == "" {
      UnlinesOne("");
    } else {
      LinesRestore(s[1..]);
      assert s == [s[0]] + s[1..];
      if s[0] == '\n' {
        RestoreBreak(Lines(s[1..]), s[1..]);
      } else {
        RestoreChar(Lines(s[1..]), s[0], s[1..]);
      }
    }
  }

  lemma {:induction false} LinesConcat(a: string, b: string)
    ensures Lines(a + "\n" + b) == Lines(a) + Lines(b)
  {
    if a == "" {
      assert a + "\n" + b == "\n" + b;
      assert ("\n" + b)[1..] == b;
    } else {
      assert (a + "\n" + b)[1..] == a[1..] + "\n" + b;
      LinesConcat(a[1..], b);
    }
  }

  lemma {:induction false} LinesSingle(s: string)
    requires '\n' !in s
    ensures Lines(s) == [s]
  {
    if s != "" {
      LinesSingle(s[1..]);
      assert [s[0]] + s[1..] == s;
    }
  }

  lemma {:induction false} LinesHaveNoNewline(s: string)
    ensures forall i :: 0 <= i < |Lines(s)| ==> '\n' !in Lines(s)[i]
  {
    if s != "" {
      LinesHaveNoNewline(s[1..]);
    }
  }

  predicate NewlineFree(lines: seq<string>) {
    forall i :: 0 <= i < |lines| ==> '\n' !in lines[i]
  }

  /** Lines that end in newlines are read back, with the empty rest after the last. */
  lemma {:induction false} LinesOfUnlines(lines: seq<string>)
    requires NewlineFree(lines)
    ensures Lines(Unlines(lines)) == lines + [""]
  {
    if lines == [] {
      assert lines + [""] == [""];
    } else {
      UnlinesHead(lines);
      LinesConcat(lines[0], Unlines(lines[1..]));
      LinesSingle(lines[0]);
      LinesOfUnlines(lines[1..]);
      assert [lines[0]] + (lines[1..] + [""]) == lines + [""];
    }
  }

  lemma NotPrefix(s: string, p: string, i: nat)
    requires i < |p| && i < |s| && s[i] != p[i]
    ensures !HasPrefix(s, p)
  {
    if |p| <= |s| {
      assert s[..|p|][i] != p[i];
    }
  }

  /** A newline-free pattern never spans two lines. */
  lemma {:induction false} ContainsAcrossNewline(a: string, b: string, p: string)
    requires p != "" && '\n' !in p
    ensures Contains(a + "\n" + b, p) <==> Contains(a, p) || Contains(b, p)
  {
    var s := a + "\n" + b;
    if a == "" {
      assert s[0] == '\n' && s[1..] == b;
      assert !HasPrefix(s, p);
    } else {
      assert s[1..] == a[1..] + "\n" + b;
      ContainsAcrossNewline(a[1..], b, p);
      if |p| <= |a| {
        assert s[..|p|] == a[..|p|];
      } else {
        NotPrefix(s, p, |a|);
      }
    }
  }

  // ---- Trimming ----

  /** The characters Go's unicode.IsSpace accepts. */
  predicate IsSpace(c: char) {
    c in "\t\n\U{B}\U{C}\r \U{85}\U{A0}\U{1680}\U{2028}\U{2029}\U{202F}\U{205F}\U{3000}" || '\U{2000}' <= c <= '\U{200A}'
  }

  function TrimLeft(s: string): string {
    if s != "" && IsSpace(s[0]) then TrimLeft(s[1..]) else s
  }

  function TrimRight(s: string): string {
    if s != "" && IsSpace(s[|s| - 1]) then TrimRight(s[..|s| - 1]) else s
  }

  function TrimSpace(s: string): string {
    TrimRight(TrimLeft(s))
  }

  /** Neither end is a space. */
  predicate Trimmed(s: string) {
    s == "" || (!IsSpace(s[0]) && !IsSpace(s[|s| - 1]))
  }

  lemma {:induction false} TrimRightTrims(s: string)
    requires s == "" || !IsSpace(s[0])
    ensures Trimmed(TrimRight(s)) && forall c :: c in TrimRight(s) ==> c in s
  {
    if s != "" && IsSpace(s[|s| - 1]) {
      TrimRightTrims(s[..|s| - 1]);
    }
  }

  lemma {:induction false} TrimLeftTrims(s: string)
    ensures var t := TrimLeft(s); (t == "" || !IsSpace(t[0])) && forall c :: c in t ==> c in s
  {
    if s != "" && IsSpace(s[0]) {
      TrimLeftTrims(s[1..]);
    }
  }

  /** Trimming yields a trimmed string of the same characters, and leaves exactly the trimmed ones alone. */
  lemma TrimSpaceTrims(s: string)
    ensures Trimmed(TrimSpace(s)) && forall c :: c in TrimSpace(s) ==> c in s
    ensures TrimSpace(s) == s <==> Trimmed(s)
  {
    TrimLeftTrims(s);
    TrimRightTrims(TrimLeft(s));
  }
}
