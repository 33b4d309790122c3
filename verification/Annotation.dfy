/** The owner fields in a VM's notes (internal/hypervisor/vsphere/driver.go:657-669, :948-963). */
module Annotation {
  import opened Text

  const HEADER := "Generated by " + "GhostFleet " + "\U{2014} OS-less " + "backup source VM"
  const OWNER_KEY := "ghostfleet-deployment-id"
  const NAME_KEY := "deployment"

  function VmAnnotation(id: string, name: string): string {
    WithField(WithField(HEADER, NAME_KEY, name), OWNER_KEY, id)
  }

  function WithField(notes: string, key: string, value: string): string {
    if value != "" then notes + "\n" + (key + ": " + value) else notes
  }

  datatype Owner = Owner(id: string, name: string)

  /** The effect of one line: a recognised field overwrites what earlier lines gave. */
  function ParseLine(o: Owner, raw: string): Owner {
    var line := TrimSpace(raw);
    if HasPrefix(line, OWNER_KEY + ":") then o.(id := TrimSpace(line[|OWNER_KEY| + 1..]))
    else if HasPrefix(line, NAME_KEY + ":") then o.(name := TrimSpace(line[|NAME_KEY| + 1..]))
    else o
  }

  function ParseLines(lines: seq<string>): Owner {
    if lines == [] then Owner("", "") else ParseLine(ParseLines(lines[..|lines| - 1]), lines[|lines| - 1])
  }

  function Parse(annotation: string): Owner {
    ParseLines(Lines(annotation))
  }

  /** The loop of the source. */
  method ParseOwner(annotation: string) returns (id: string, name: string)
    ensures Owner(id, name) == Parse(annotation)
  {
    id, name := "", "";
    var lines := Lines(annotation);
    for i := 0 to |lines|
      invariant Owner(id, name) == ParseLines(lines[..i])
    {
      assert lines[..i + 1][..i] == lines[..i];
      var line := TrimSpace(lines[i]);
      if HasPrefix(line, OWNER_KEY + ":") {
        id := TrimSpace(line[|OWNER_KEY| + 1..]);
      } else if HasPrefix(line, NAME_KEY + ":") {
        name := TrimSpace(line[|NAME_KEY| + 1..]);
      }
    }
    assert lines[..|lines|] == lines;
  }

  /** A value the annotation can carry: on one line, without spaces around it. */
  predicate Clean(s: string) {
    '\n' !in s && Trimmed(s)
  }

  lemma ParsedFieldIsClean(line: string, from: nat)
    requires '\n' !in line && from <= |TrimSpace(line)|
    ensures Clean(TrimSpace(TrimSpace(line)[from..]))
  {
    TrimSpaceTrims(line);
    TrimSpaceTrims(TrimSpace(line)[from..]);
  }

  /** Whatever the notes say, the owner read from them is clean. */
  lemma {:induction false} ParsedIsClean(lines: seq<string>)
    requires forall i :: 0 <= i < |lines| ==> '\n' !in lines[i]
    ensures Clean(ParseLines(lines).id) && Clean(ParseLines(lines).name)
  {
    if lines != [] {
      var line := lines[|lines| - 1];
      ParsedIsClean(lines[..|lines| - 1]);
      if HasPrefix(TrimSpace(line), OWNER_KEY + ":") {
        ParsedFieldIsClean(line, |OWNER_KEY| + 1);
      } else if HasPrefix(TrimSpace(line), NAME_KEY + ":") {
        ParsedFieldIsClean(line, |NAME_KEY| + 1);
      }
    }
  }

  lemma HeaderFacts()
    ensures '\n' !in HEADER && HEADER != "" && HEADER[0] == 'G' && HEADER[|HEADER| - 1] == 'M'
  {
    assert '\n' !in "Generated by " && '\n' !in "GhostFleet ";
    assert '\n' !in "\U{2014} OS-less " && '\n' !in "backup source VM";
  }

  lemma NoFieldLine(o: Owner, line: string)
    requires line != "" && Trimmed(line) && line[0] == 'G'
    ensures ParseLine(o, line) == o
  {
    TrimSpaceTrims(line);
    NotPrefix(line, OWNER_KEY + ":", 0);
    NotPrefix(line, NAME_KEY + ":", 0);
  }

  lemma TrimOneSpace(s: string)
    requires Trimmed(s)
    ensures TrimSpace(" " + s) == s
  {
    assert (" " + s)[1..] == s;
    TrimSpaceTrims(s);
    TrimLeftTrims(s);
  }

  lemma FieldLine(o: Owner, key: string, value: string)
    requires key in {OWNER_KEY, NAME_KEY} && Clean(value) && value != ""
    ensures ParseLine(o, key + ": " + value) == if key == OWNER_KEY then o.(id := value) else o.(name := value)
  {
    var line := key + ": " + value;
    assert line == (key + ":") + (" " + value);
    assert Trimmed(line) by {
      assert line[0] == key[0] && line[|line| - 1] == value[|value| - 1];
    }
    TrimSpaceTrims(line);
    assert HasPrefix(line, key + ":") && line[|key| + 1..] == " " + value;
    TrimOneSpace(value);
    if key == NAME_KEY {
      NotPrefix(line, OWNER_KEY + ":", 0);
    }
  }

  lemma ParseSnoc(lines: seq<string>, line: string)
    ensures ParseLines(lines + [line]) == ParseLine(ParseLines(lines), line)
  {
    assert (lines + [line])[..|lines|] == lines;
  }

  /** A clean value added as a field is read back, and changes nothing else. */
  lemma FieldReadsBack(notes: string, key: string, value: string)
    requires key in {OWNER_KEY, NAME_KEY} && Clean(value)
    requires value == "" ==> (if key == OWNER_KEY then Parse(notes).id else Parse(notes).name) == ""
    ensures Parse(WithField(notes, key, value))
      == if key == OWNER_KEY then Parse(notes).(id := value) else Parse(notes).(name := value)
  {
    if value != "" {
      var line := key + ": " + value;
      LinesConcat(notes, line);
      LinesSingle(line);
      ParseSnoc(Lines(notes), line);
      FieldLine(Parse(notes), key, value);
    }
  }

  lemma HeaderParses()
    ensures Parse(HEADER) == Owner("", "")
  {
    HeaderFacts();
    LinesSingle(HEADER);
    ParseSnoc([], HEADER);
    assert [] + [HEADER] == [HEADER];
    NoFieldLine(Owner("", ""), HEADER);
  }

  /** The owner test is faithful exactly for clean ids and names. */
  lemma OwnerRoundTrip(id: string, name: string)
    ensures Parse(VmAnnotation(id, name)) == Owner(id, name) <==> Clean(id) && Clean(name)
  {
    if Clean(id) && Clean(name) {
      HeaderParses();
      FieldReadsBack(HEADER, NAME_KEY, name);
      FieldReadsBack(WithField(HEADER, NAME_KEY, name), OWNER_KEY, id);
    } else {
      LinesHaveNoNewline(VmAnnotation(id, name));
      ParsedIsClean(Lines(VmAnnotation(id, name)));
    }
  }
}
