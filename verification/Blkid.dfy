/**
  Finding a block device by UUID in the output of "blkid -o export", and the
  printing it undoes: per device a DEVNAME line and further KEY=value lines,
  devices separated by a blank line.
 */
module Blkid {
  import opened Text

  /** `Panic` stands for the slice whose bounds are out of order. */
  datatype Device = Device(path: string) | Malformed | NotFound | Panic

  /** lxd.GetDeviceByUUID on the output of a blkid that succeeded. */
  function GetDeviceByUUID(out: string, uuid: string): Device {
    FindDevice(Split(out, "\n\n"), uuid)
  }

  function FindDevice(devs: seq<string>, uuid: string): Device {
    if devs == [] then NotFound
    else if Contains(devs[0], uuid) then DeviceOf(devs[0])
    else FindDevice(devs[1..], uuid)
  }

  /** The value of the first line, by the first equals sign and the first newline. */
  function DeviceOf(dev: string): Device {
    var eq, nl := Index(dev, "="), Index(dev, "\n");
    if eq == -1 || nl == -1 then Malformed
    else if eq + 1 > nl then Panic
    else Device(dev[eq + 1..nl])
  }

  // ---- what blkid prints ----

  /** One device: its name and the other lines printed for it. */
  datatype Record = Record(devname: string, lines: seq<string>)

  predicate Line(s: string) {
    s != "" && '\n' !in s
  }

  predicate WellFormed(r: Record) {
    '\n' !in r.devname && forall i | 0 <= i < |r.lines| :: Line(r.lines[i])
  }

  function LinesOf(r: Record): seq<string> {
    ["DEVNAME=" + r.devname] + r.lines
  }

  function Body(r: Record): string {
    Join(LinesOf(r), "\n")
  }

  function Print(rs: seq<Record>): string {
    if rs == [] then ""
    else if |rs| == 1 then Body(rs[0]) + "\n"
    else Body(rs[0]) + "\n\n" + Print(rs[1..])
  }

  /** Some line of the record holds the UUID. */
  predicate Mentions(r: Record, uuid: string) {
    exists i | 0 <= i < |LinesOf(r)| :: Contains(LinesOf(r)[i], uuid)
  }

  /**
    What the search answers, read off the records: the device name of the
    first record that mentions the UUID, unless that record is a bare DEVNAME
    line with another record after it.
   */
  function FirstMention(rs: seq<Record>, uuid: string): Device {
    if rs == [] then NotFound
    else if Mentions(rs[0], uuid) then
      if rs[0].lines == [] && |rs| > 1 then Malformed else Device(rs[0].devname)
    else FirstMention(rs[1..], uuid)
  }

  // ---- proofs ----

  /** No newline is followed by another newline or by the end. */
  predicate NoBlankLine(s: string) {
    forall j | 0 <= j < |s| && s[j] == '\n' :: j + 1 < |s| && s[j + 1] != '\n'
  }

  lemma {:induction false} JoinHasNoBlankLine(lines: seq<string>)
    requires |lines| >= 1 && forall i | 0 <= i < |lines| :: Line(lines[i])
    ensures NoBlankLine(Join(lines, "\n")) && Join(lines, "\n") != "" && Join(lines, "\n")[0] != '\n'
  {
    assert Line(lines[0]);
    if |lines| > 1 {
      assert forall i | 0 <= i < |lines| - 1 :: lines[1..][i] == lines[i + 1];
      JoinHasNoBlankLine(lines[1..]);
      assert Line(lines[1]);
      BlankFree(lines[0], Join(lines[1..], "\n"));
    }
  }

  lemma BlankFree(a: string, b: string)
    requires '\n' !in a && NoBlankLine(b) && b != "" && b[0] != '\n'
    ensures NoBlankLine(a + "\n" + b)
  {
    var s := a + "\n" + b;
    forall j | 0 <= j < |s| && s[j] == '\n'
      ensures j + 1 < |s| && s[j + 1] != '\n'
    {
      if j > |a| {
        assert s[j] == b[j - |a| - 1];
      }
    }
  }

  lemma LinesOk(r: Record)
    requires WellFormed(r)
    ensures forall i | 0 <= i < |LinesOf(r)| :: Line(LinesOf(r)[i])
    ensures NoBlankLine(Body(r))
  {
    assert '\n' !in "DEVNAME=";
    forall i | 0 <= i < |LinesOf(r)|
      ensures Line(LinesOf(r)[i])
    {
      assert i > 0 ==> LinesOf(r)[i] == r.lines[i - 1];
    }
    JoinHasNoBlankLine(LinesOf(r));
  }

  /** Text without a blank line ends at the first "\n\n" behind it. */
  lemma SplitBlank(a: string, b: string)
    requires NoBlankLine(a)
    ensures Split(a + "\n\n" + b, "\n\n") == [a] + Split(b, "\n\n")
  {
    var s := a + "\n\n" + b;
    assert s[|a|..|a| + 2] == "\n\n";
    assert OccursAt(s, "\n\n", |a|);
    forall j | 0 <= j < |a|
      ensures !OccursAt(s, "\n\n", j)
    {
      assert s[j] == a[j];
      assert s[j..j + 2][0] == s[j] && s[j..j + 2][1] == s[j + 1];
      assert j + 1 < |a| ==> s[j + 1] == a[j + 1];
    }
    IndexIsFirst(s, "\n\n", |a|);
    SplitAt(a, "\n\n", b);
  }

  lemma SplitLast(a: string)
    requires NoBlankLine(a)
    ensures Split(a + "\n", "\n\n") == [a + "\n"]
  {
    var s := a + "\n";
    forall j | 0 <= j <= |s| - 2
      ensures !OccursAt(s, "\n\n", j)
    {
      assert s[j..j + 2][0] == a[j] && s[j..j + 2][1] == s[j + 1];
      assert j + 1 < |a| ==> s[j + 1] == a[j + 1];
    }
    assert !Contains(s, "\n\n");
  }

  lemma ContainsEmpty(s: string)
    ensures Contains(s, "")
  {
    assert OccursAt(s, "", 0);
  }

  /** A newline-free needle is in the joined lines exactly if it is in a line. */
  lemma {:induction false} ContainsInLines(lines: seq<string>, uuid: string)
    requires |lines| >= 1 && '\n' !in uuid && uuid != ""
    ensures Contains(Join(lines, "\n"), uuid) <==> exists i | 0 <= i < |lines| :: Contains(lines[i], uuid)
  {
    if |lines| > 1 {
      var rest := lines[1..];
      ContainsInLines(rest, uuid);
      ContainsAcross(lines[0], '\n', Join(rest, "\n"), uuid);
      if i :| 0 <= i < |rest| && Contains(rest[i], uuid) {
        assert Contains(lines[i + 1], uuid);
      }
      if i :| 0 <= i < |lines| && Contains(lines[i], uuid) {
        assert i > 0 ==> lines[i] == rest[i - 1];
      }
    }
  }

  lemma MentionInBody(r: Record, uuid: string)
    requires '\n' !in uuid
    ensures Contains(Body(r), uuid) <==> Mentions(r, uuid)
    ensures Contains(Body(r) + "\n", uuid) <==> Mentions(r, uuid)
  {
    if uuid == "" {
      ContainsEmpty(Body(r));
      ContainsEmpty(Body(r) + "\n");
      ContainsEmpty(LinesOf(r)[0]);
    } else {
      ContainsInLines(LinesOf(r), uuid);
      ContainsAcross(Body(r), '\n', "", uuid);
      assert Body(r) + "\n" == Body(r) + ['\n'] + "";
      assert !Contains("", uuid);
    }
  }

  /** The device name is read back from a first line that ends in a newline. */
  lemma DeviceOfLine(devname: string, rest: string)
    requires '\n' !in devname
    ensures DeviceOf("DEVNAME=" + devname + "\n" + rest) == Device(devname)
  {
    var s := "DEVNAME=" + devname + "\n" + rest;
    assert '=' !in "DEVNAME" && '\n' !in "DEVNAME=";
    assert s == "DEVNAME" + ['='] + (devname + "\n" + rest);
    IndexAfter("DEVNAME", '=', devname + "\n" + rest);
    IndexAfter("DEVNAME=" + devname, '\n', rest);
    assert s[8..8 + |devname|] == devname;
  }

  lemma BareLineMalformed(devname: string)
    requires '\n' !in devname
    ensures DeviceOf("DEVNAME=" + devname) == Malformed
  {
    var s := "DEVNAME=" + devname;
    assert '\n' !in "DEVNAME=";
    OccursChar(s, '\n', Index(s, "\n"));
  }

  lemma BodyStarts(r: Record)
    ensures r.lines == [] ==> Body(r) == "DEVNAME=" + r.devname
    ensures r.lines != [] ==> Body(r) == "DEVNAME=" + r.devname + "\n" + Join(r.lines, "\n")
  {
    assert LinesOf(r)[1..] == r.lines;
  }

  lemma DeviceOfBody(r: Record)
    requires WellFormed(r)
    ensures DeviceOf(Body(r)) == if r.lines == [] then Malformed else Device(r.devname)
    ensures DeviceOf(Body(r) + "\n") == Device(r.devname)
  {
    BodyStarts(r);
    if r.lines == [] {
      BareLineMalformed(r.devname);
      DeviceOfLine(r.devname, "");
      assert Body(r) + "\n" == "DEVNAME=" + r.devname + "\n" + "";
    } else {
      var rest := Join(r.lines, "\n");
      DeviceOfLine(r.devname, rest);
      DeviceOfLine(r.devname, rest + "\n");
      assert Body(r) + "\n" == "DEVNAME=" + r.devname + "\n" + (rest + "\n");
    }
  }

  /**
    Searching what blkid printed for any list of records and any newline-free
    UUID. Of no record at all only the empty UUID is "malformed" rather than
    not found.
   */
  lemma {:induction false} SearchUndoesPrint(rs: seq<Record>, uuid: string)
    requires forall i | 0 <= i < |rs| :: WellFormed(rs[i])
    requires '\n' !in uuid
    ensures rs != [] ==> GetDeviceByUUID(Print(rs), uuid) == FirstMention(rs, uuid)
    ensures rs == [] ==> GetDeviceByUUID(Print(rs), uuid) == if uuid == "" then Malformed else NotFound
  {
    if rs == [] {
      SearchEmpty(uuid);
    } else {
      LinesOk(rs[0]);
      MentionInBody(rs[0], uuid);
      DeviceOfBody(rs[0]);
      if |rs| == 1 {
        SplitLast(Body(rs[0]));
        FindInOne(Body(rs[0]) + "\n", uuid);
        assert rs[1..] == [];
      } else {
        SplitBlank(Body(rs[0]), Print(rs[1..]));
        SearchUndoesPrint(rs[1..], uuid);
        FindInMore(Body(rs[0]), Split(Print(rs[1..]), "\n\n"), uuid);
      }
    }
  }

  lemma SearchEmpty(uuid: string)
    ensures GetDeviceByUUID("", uuid) == if uuid == "" then Malformed else NotFound
  {
    assert Split("", "\n\n") == [""];
    FindInOne("", uuid);
    if uuid == "" {
      ContainsEmpty("");
    }
  }

  lemma FindInOne(dev: string, uuid: string)
    ensures FindDevice([dev], uuid) == if Contains(dev, uuid) then DeviceOf(dev) else NotFound
  {
    assert [dev][1..] == [];
  }

  lemma FindInMore(dev: string, devs: seq<string>, uuid: string)
    ensures FindDevice([dev] + devs, uuid) == if Contains(dev, uuid) then DeviceOf(dev) else FindDevice(devs, uuid)
  {
    assert ([dev] + devs)[1..] == devs;
  }

  /** The search fails exactly if no record mentions the UUID, or the first that does is bare and not the last. */
  lemma {:induction false} SearchFailsExactly(rs: seq<Record>, uuid: string)
    requires forall i | 0 <= i < |rs| :: WellFormed(rs[i])
    requires '\n' !in uuid && rs != []
    ensures !GetDeviceByUUID(Print(rs), uuid).Device? <==>
              || (forall i | 0 <= i < |rs| :: !Mentions(rs[i], uuid))
              || exists i | 0 <= i < |rs| - 1 :: FirstAt(rs, uuid, i) && rs[i].lines == []
    ensures forall i | 0 <= i < |rs| && FirstAt(rs, uuid, i) && (rs[i].lines != [] || i == |rs| - 1) ::
              GetDeviceByUUID(Print(rs), uuid) == Device(rs[i].devname)
  {
    SearchUndoesPrint(rs, uuid);
    if k :| 0 <= k < |rs| && Mentions(rs[k], uuid) {
      var i := FirstOf(rs, uuid, k);
      MentionAt(rs, uuid, i);
    } else {
      NoMention(rs, uuid);
    }
  }

  predicate FirstAt(rs: seq<Record>, uuid: string, i: int) {
    0 <= i < |rs| && Mentions(rs[i], uuid) && forall j | 0 <= j < i :: !Mentions(rs[j], uuid)
  }

  lemma FirstOf(rs: seq<Record>, uuid: string, k: nat) returns (i: nat)
    requires k < |rs| && Mentions(rs[k], uuid)
    ensures FirstAt(rs, uuid, i)
  {
    i := 0;
    while !Mentions(rs[i], uuid)
      invariant i <= k && forall j | 0 <= j < i :: !Mentions(rs[j], uuid)
      decreases k - i
    {
      i := i + 1;
    }
  }

  lemma {:induction false} MentionAt(rs: seq<Record>, uuid: string, i: nat)
    requires FirstAt(rs, uuid, i)
    ensures FirstMention(rs, uuid) == if rs[i].lines == [] && i < |rs| - 1 then Malformed else Device(rs[i].devname)
    decreases |rs|
  {
    if i > 0 {
      assert !Mentions(rs[0], uuid);
      assert forall j | 0 <= j < |rs| - 1 :: rs[1..][j] == rs[j + 1];
      MentionAt(rs[1..], uuid, i - 1);
    }
  }

  lemma {:induction false} NoMention(rs: seq<Record>, uuid: string)
    requires forall i | 0 <= i < |rs| :: !Mentions(rs[i], uuid)
    ensures FirstMention(rs, uuid) == NotFound
  {
    if rs != [] {
      assert !Mentions(rs[0], uuid);
      NoMention(rs[1..], uuid);
    }
  }
}
