/** The dictation log: one object text a line, appended to a file a crash may cut
    short anywhere, and read back line by line. */
module InsightsLog {
  import opened Wrappers
  import opened TextBasics

  type Int32 = x: int | -0x8000_0000 <= x < 0x8000_0000

  /** `finishedAt` is in milliseconds; the file keeps what its ISO text tells. */
  datatype Record = Record(
    finishedAt: int, audioMs: Int32, words: Int32, app: string, profile: string, profileName: string,
    speechProviders: seq<string>, refinementProviders: seq<string>)

  datatype Key =
    | FinishedAt | AudioMs | Words | App | Profile | ProfileName | SpeechProviders | RefinementProviders

  datatype Value = Text(text: string) | Number(value: int) | Texts(items: seq<string>)

  /** Printing an object with its keys in order and parsing one, which bytes are white
      space, writing and reading times, and the profile a name stands for. */
  datatype Format = Format(
    line: seq<(Key, Value)> -> seq<Byte>,
    parse: seq<Byte> -> Option<map<Key, Value>>,
    space: Byte -> bool,
    isoText: int -> string,
    isoTime: string -> Option<int>,
    profileNamed: string -> string)

  // ----- A record and its fields

  function ListField(key: Key, items: seq<string>): seq<(Key, Value)> {
    if items == [] then [] else [(key, Texts(items))]
  }

  /** The fields of a record in the order of the line; empty ones are left out. */
  function Fields(f: Format, r: Record): seq<(Key, Value)> {
    [(FinishedAt, Text(f.isoText(r.finishedAt))), (AudioMs, Number(r.audioMs)), (Words, Number(r.words)),
     (App, Text(r.app)), (Profile, Text(r.profile))]
    + (if r.profileName == "" then [] else [(ProfileName, Text(r.profileName))])
    + ListField(SpeechProviders, r.speechProviders)
    + ListField(RefinementProviders, r.refinementProviders)
  }

  function Object(fields: seq<(Key, Value)>): map<Key, Value> {
    if fields == [] then map[]
    else
      var last := fields[|fields| - 1];
      Object(fields[..|fields| - 1])[last.0 := last.1]
  }

  /** The object text of a record, which `encode` follows with a newline. */
  function ObjectText(f: Format, r: Record): seq<Byte> {
    f.line(Fields(f, r))
  }

  function TextOf(o: map<Key, Value>, key: Key): string {
    if key in o && o[key].Text? then o[key].text else ""
  }

  function NumberOf(o: map<Key, Value>, key: Key): Int32 {
    if key in o && o[key].Number? && -0x8000_0000 <= o[key].value < 0x8000_0000 then o[key].value else 0
  }

  function TextsOf(o: map<Key, Value>, key: Key): seq<string> {
    if key !in o then []
    else match o[key]
      case Texts(items) => items
      case Text(text) => [text]
      case Number(_) => []
  }

  /** A record is one whose time can be read; any other field may be missing. */
  function DecodeObject(f: Format, o: map<Key, Value>): Option<Record> {
    match f.isoTime(TextOf(o, FinishedAt))
    case None => None
    case Some(time) =>
      Some(Record(time, NumberOf(o, AudioMs), NumberOf(o, Words), TextOf(o, App),
                  f.profileNamed(TextOf(o, Profile)), TextOf(o, ProfileName),
                  TextsOf(o, SpeechProviders), TextsOf(o, RefinementProviders)))
  }

  function Decode(f: Format, line: seq<Byte>): Option<Record> {
    match f.parse(line)
    case None => DecodeObject(f, map[])
    case Some(o) => DecodeObject(f, o)
  }

  /** What of a record survives being written and read: all of it, but for the part of
      its time that ISO text drops and a profile whose name now stands for another. */
  function Kept(f: Format, r: Record): seq<Record> {
    match f.isoTime(f.isoText(r.finishedAt))
    case None => []
    case Some(time) => [r.(finishedAt := time, profile := f.profileNamed(r.profile))]
  }

  /** An object text is one line that starts and ends with a byte that is not white
      space, parses back, and no part of which short of the whole is an object (section 4
      of RFC 8259: an object ends with the brace that closes it). No text is no time. */
  ghost predicate IsLineFormat(f: Format) {
    && f.space(NEWLINE) && f.isoTime("") == None
    && (forall r :: IsLine(f, r))
  }

  ghost predicate IsLine(f: Format, r: Record) {
    var text := ObjectText(f, r);
    && text != [] && NEWLINE !in text && !f.space(text[0]) && !f.space(text[|text| - 1])
    && f.parse(text) == Some(Object(Fields(f, r)))
    && forall k: nat :: k < |text| ==> f.parse(Trimmed(f.space, text[..k])) == None
  }

  lemma {:induction false} ObjectGrows(fields: seq<(Key, Value)>, key: Key, value: Value)
    ensures Object(fields + [(key, value)]) == Object(fields)[key := value]
  {
    assert (fields + [(key, value)])[..|fields|] == fields;
  }

  lemma ListFieldAdds(fields: seq<(Key, Value)>, key: Key, items: seq<string>)
    ensures Object(fields + ListField(key, items))
         == if items == [] then Object(fields) else Object(fields)[key := Texts(items)]
  {
    if items == [] {
      assert fields + [] == fields;
    } else {
      ObjectGrows(fields, key, Texts(items));
    }
  }

  /** The five fields every record has. */
  function FirstFields(f: Format, r: Record): map<Key, Value> {
    map[FinishedAt := Text(f.isoText(r.finishedAt)), AudioMs := Number(r.audioMs), Words := Number(r.words),
        App := Text(r.app), Profile := Text(r.profile)]
  }

  lemma FirstFieldsMakeObject(f: Format, r: Record)
    ensures Object([(FinishedAt, Text(f.isoText(r.finishedAt))), (AudioMs, Number(r.audioMs)),
                    (Words, Number(r.words)), (App, Text(r.app)), (Profile, Text(r.profile))])
         == FirstFields(f, r)
  {
    var one: seq<(Key, Value)> := [] + [(FinishedAt, Text(f.isoText(r.finishedAt)))];
    var two := one + [(AudioMs, Number(r.audioMs))];
    var three := two + [(Words, Number(r.words))];
    var four := three + [(App, Text(r.app))];
    ObjectGrows([], FinishedAt, Text(f.isoText(r.finishedAt)));
    ObjectGrows(one, AudioMs, Number(r.audioMs));
    ObjectGrows(two, Words, Number(r.words));
    ObjectGrows(three, App, Text(r.app));
    ObjectGrows(four, Profile, Text(r.profile));
    assert [(FinishedAt, Text(f.isoText(r.finishedAt))), (AudioMs, Number(r.audioMs)),
            (Words, Number(r.words)), (App, Text(r.app)), (Profile, Text(r.profile))]
        == four + [(Profile, Text(r.profile))];
  }

  function AllFields(f: Format, r: Record): map<Key, Value> {
    var first := FirstFields(f, r);
    var named := if r.profileName == "" then first else first[ProfileName := Text(r.profileName)];
    var spoken := if r.speechProviders == [] then named else named[SpeechProviders := Texts(r.speechProviders)];
    if r.refinementProviders == [] then spoken else spoken[RefinementProviders := Texts(r.refinementProviders)]
  }

  lemma FieldsMakeObject(f: Format, r: Record)
    ensures Object(Fields(f, r)) == AllFields(f, r)
  {
    var first := [(FinishedAt, Text(f.isoText(r.finishedAt))), (AudioMs, Number(r.audioMs)), (Words, Number(r.words)),
                  (App, Text(r.app)), (Profile, Text(r.profile))];
    var named := first + if r.profileName == "" then [] else [(ProfileName, Text(r.profileName))];
    var spoken := named + ListField(SpeechProviders, r.speechProviders);
    FirstFieldsMakeObject(f, r);
    if r.profileName == "" {
      assert named == first;
    } else {
      ObjectGrows(first, ProfileName, Text(r.profileName));
    }
    ListFieldAdds(named, SpeechProviders, r.speechProviders);
    ListFieldAdds(spoken, RefinementProviders, r.refinementProviders);
    assert Fields(f, r) == spoken + ListField(RefinementProviders, r.refinementProviders);
  }

  /** Each field stands under its own name, and an empty profile name or list under none. */
  lemma FieldsAreNamed(f: Format, r: Record)
    ensures var o := Object(Fields(f, r));
            && FinishedAt in o && o[FinishedAt] == Text(f.isoText(r.finishedAt))
            && AudioMs in o && o[AudioMs] == Number(r.audioMs)
            && Words in o && o[Words] == Number(r.words)
            && App in o && o[App] == Text(r.app)
            && Profile in o && o[Profile] == Text(r.profile)
            && (ProfileName in o <==> r.profileName != "")
            && (ProfileName in o ==> o[ProfileName] == Text(r.profileName))
            && (SpeechProviders in o <==> r.speechProviders != [])
            && (SpeechProviders in o ==> o[SpeechProviders] == Texts(r.speechProviders))
            && (RefinementProviders in o <==> r.refinementProviders != [])
            && (RefinementProviders in o ==> o[RefinementProviders] == Texts(r.refinementProviders))
  {
    FieldsMakeObject(f, r);
  }

  /** What else a line may hold: a time that cannot be read makes it no record; a field that
      is missing, or of another kind, is empty or 0, but for a text in place of a list. */
  lemma ForeignLinesRead(f: Format, o: map<Key, Value>)
    ensures var time := f.isoTime(if FinishedAt in o && o[FinishedAt].Text? then o[FinishedAt].text else "");
            && (time.None? <==> DecodeObject(f, o).None?)
            && (time.Some? ==>
                  var r := DecodeObject(f, o).value;
                  && r.finishedAt == time.value
                  && (App !in o || !o[App].Text? ==> r.app == "")
                  && (AudioMs !in o || !o[AudioMs].Number? ==> r.audioMs == 0)
                  && (Words in o && o[Words].Number? ==>
                        r.words == if -0x8000_0000 <= o[Words].value < 0x8000_0000 then o[Words].value else 0)
                  && (SpeechProviders !in o ==> r.speechProviders == [])
                  && (SpeechProviders in o && o[SpeechProviders].Text? ==>
                        r.speechProviders == [o[SpeechProviders].text]))
  {
  }

  predicate Reads(decoded: Option<Record>, kept: seq<Record>) {
    kept == match decoded case None => [] case Some(r) => [r]
  }

  /** Field by field, what was written is what is read. */
  lemma FieldsReadBack(f: Format, r: Record)
    ensures Reads(DecodeObject(f, Object(Fields(f, r))), Kept(f, r))
  {
    FieldsMakeObject(f, r);
  }

  lemma LinesDecode(f: Format, r: Record)
    requires IsLineFormat(f)
    ensures var text := ObjectText(f, r);
            && text != [] && NEWLINE !in text && !f.space(text[0]) && !f.space(text[|text| - 1])
            && Reads(Decode(f, text), Kept(f, r))
            && forall k: nat :: k < |text| ==> Decode(f, Trimmed(f.space, text[..k])) == None
  {
    assert IsLine(f, r);
    FieldsReadBack(f, r);
  }

  // ----- Reading

  /** Where the first line ends: at its newline, or at the end of the file. */
  function LineEnd(file: seq<Byte>): (n: nat)
    ensures n <= |file|
    ensures n < |file| ==> file[n] == NEWLINE
    ensures NEWLINE !in file[..n]
  {
    if file == [] || file[0] == NEWLINE then 0
    else
      var n := 1 + LineEnd(file[1..]);
      assert file[..n] == [file[0]] + file[1..][..n - 1];
      n
  }

  /** What one line adds: a blank or unreadable one, nothing. */
  function LineRecords(f: Format, line: seq<Byte>): seq<Record> {
    var text := Trimmed(f.space, line);
    if text == [] then []
    else match Decode(f, text)
      case None => []
      case Some(r) => [r]
  }

  function Load(f: Format, file: seq<Byte>): seq<Record> {
    if file == [] then []
    else
      var n := LineEnd(file);
      LineRecords(f, file[..n]) + if n < |file| then Load(f, file[n + 1..]) else []
  }

  // ----- Writing

  predicate EndsLine(file: seq<Byte>) {
    file == [] || file[|file| - 1] == NEWLINE
  }

  /** The bytes an append writes: a line cut short by a crash is ended first. */
  function Appended(f: Format, file: seq<Byte>, r: Record): seq<Byte> {
    (if EndsLine(file) then [] else [NEWLINE]) + ObjectText(f, r) + [NEWLINE]
  }

  /** An append of which `written` bytes reached the file. */
  datatype Append = Append(record: Record, written: nat)

  predicate Fits(f: Format, file: seq<Byte>, a: Append) {
    a.written <= |Appended(f, file, a.record)|
  }

  function Write(f: Format, file: seq<Byte>, a: Append): seq<Byte>
    requires Fits(f, file, a)
  {
    file + Appended(f, file, a.record)[..a.written]
  }

  /** Whether the whole object text was written, newline or not. */
  predicate TextLanded(f: Format, file: seq<Byte>, a: Append) {
    a.written + 1 >= |Appended(f, file, a.record)|
  }

  predicate AllFit(f: Format, file: seq<Byte>, appends: seq<Append>)
    decreases appends
  {
    appends == [] || (Fits(f, file, appends[0]) && AllFit(f, Write(f, file, appends[0]), appends[1..]))
  }

  function WriteAll(f: Format, file: seq<Byte>, appends: seq<Append>): seq<Byte>
    requires AllFit(f, file, appends)
    decreases appends
  {
    if appends == [] then file else WriteAll(f, Write(f, file, appends[0]), appends[1..])
  }

  /** The records whose text was written whole, as they read back, in order. */
  function Landed(f: Format, file: seq<Byte>, appends: seq<Append>): seq<Record>
    requires AllFit(f, file, appends)
    decreases appends
  {
    if appends == [] then []
    else
      (if TextLanded(f, file, appends[0]) then Kept(f, appends[0].record) else [])
      + Landed(f, Write(f, file, appends[0]), appends[1..])
  }

  // ----- Torn writes cost only the record they tore

  lemma {:induction false} LineEndOfLine(line: seq<Byte>, rest: seq<Byte>)
    requires NEWLINE !in line
    ensures LineEnd(line + [NEWLINE] + rest) == |line|
    ensures LineEnd(line) == |line|
  {
    if line != [] {
      LineEndOfLine(line[1..], rest);
      assert (line + [NEWLINE] + rest)[1..] == line[1..] + [NEWLINE] + rest;
    }
  }

  lemma LoadOfOneLine(f: Format, line: seq<Byte>)
    requires NEWLINE !in line
    ensures Load(f, line) == LineRecords(f, line)
  {
    LineEndOfLine(line, []);
    assert line[..|line|] == line;
  }

  lemma LoadOfFirstLine(f: Format, line: seq<Byte>, rest: seq<Byte>)
    requires NEWLINE !in line
    ensures Load(f, line + [NEWLINE] + rest) == LineRecords(f, line) + Load(f, rest)
  {
    var file := line + [NEWLINE] + rest;
    LineEndOfLine(line, rest);
    assert file[..|line|] == line && file[|line| + 1..] == rest;
  }

  lemma {:induction false} LoadSplitsAtNewline(f: Format, a: seq<Byte>, b: seq<Byte>)
    ensures Load(f, a + [NEWLINE] + b) == Load(f, a) + Load(f, b)
  {
    var n := LineEnd(a);
    var line := a[..n];
    if n == |a| {
      assert line == a;
      LoadOfFirstLine(f, a, b);
      LoadOfOneLine(f, a);
    } else {
      var rest := a[n + 1..];
      LoadSplitsAtNewline(f, rest, b);
      Regroup(a, n, b);
      LoadSplitsLater(f, a, a + [NEWLINE] + b, line, rest, rest + [NEWLINE] + b, b);
    }
  }

  lemma Regroup(a: seq<Byte>, n: nat, b: seq<Byte>)
    requires n < |a| && a[n] == NEWLINE
    ensures a == a[..n] + [NEWLINE] + a[n + 1..]
    ensures a + [NEWLINE] + b == a[..n] + [NEWLINE] + (a[n + 1..] + [NEWLINE] + b)
  {
  }

  lemma LoadSplitsLater(f: Format, a: seq<Byte>, whole: seq<Byte>, line: seq<Byte>,
                        rest: seq<Byte>, tail: seq<Byte>, b: seq<Byte>)
    requires NEWLINE !in line && a == line + [NEWLINE] + rest && whole == line + [NEWLINE] + tail
    requires Load(f, tail) == Load(f, rest) + Load(f, b)
    ensures Load(f, whole) == Load(f, a) + Load(f, b)
  {
    LoadOfFirstLine(f, line, rest);
    LoadOfFirstLine(f, line, tail);
    Associative(LineRecords(f, line), Load(f, rest), Load(f, b));
  }

  lemma Associative(x: seq<Record>, y: seq<Record>, z: seq<Record>)
    ensures (x + y) + z == x + (y + z)
  {
  }

  /** Ending a line, or a line that has ended, reads as it did. */
  lemma LoadAfterNewline(f: Format, a: seq<Byte>)
    ensures Load(f, a + [NEWLINE]) == Load(f, a)
  {
    LoadSplitsAtNewline(f, a, []);
    assert a + [NEWLINE] + [] == a + [NEWLINE];
  }

  /** What a written piece of a line reads as on its own. */
  lemma LoadOfPiece(f: Format, r: Record, k: nat)
    requires IsLineFormat(f) && k <= |ObjectText(f, r)| + 1
    ensures Load(f, (ObjectText(f, r) + [NEWLINE])[..k]) == if k < |ObjectText(f, r)| then [] else Kept(f, r)
  {
    var text := ObjectText(f, r);
    LinesDecode(f, r);
    var piece := (text + [NEWLINE])[..k];
    LoadOfOneLine(f, text);
    if k < |text| {
      assert piece == text[..k];
      LoadOfOneLine(f, piece);
    } else if k == |text| {
      assert piece == text;
    } else {
      assert piece == text + [NEWLINE];
      LoadAfterNewline(f, text);
    }
  }

  lemma LoadAfterEndedLines(f: Format, file: seq<Byte>, piece: seq<Byte>)
    requires EndsLine(file)
    ensures Load(f, file + piece) == Load(f, file) + Load(f, piece)
  {
    if file == [] {
      assert file + piece == piece;
    } else {
      var front := file[..|file| - 1];
      assert file == front + [NEWLINE] && file + piece == front + [NEWLINE] + piece;
      LoadSplitsAtNewline(f, front, piece);
      LoadAfterNewline(f, front);
    }
  }

  lemma TornLineIsEndedFirst(f: Format, file: seq<Byte>, r: Record, k: nat)
    requires !EndsLine(file) && k <= |ObjectText(f, r)| + 1
    ensures |Appended(f, file, r)| == |ObjectText(f, r)| + 2
    ensures Write(f, file, Append(r, k + 1)) == file + [NEWLINE] + (ObjectText(f, r) + [NEWLINE])[..k]
  {
    assert Appended(f, file, r) == [NEWLINE] + (ObjectText(f, r) + [NEWLINE]);
  }

  lemma WriteAddsLandedRecord(f: Format, file: seq<Byte>, a: Append)
    requires IsLineFormat(f) && Fits(f, file, a)
    ensures Load(f, Write(f, file, a))
         == Load(f, file) + if TextLanded(f, file, a) then Kept(f, a.record) else []
  {
    if EndsLine(file) {
      var line := ObjectText(f, a.record) + [NEWLINE];
      assert Appended(f, file, a.record) == line;
      LoadOfPiece(f, a.record, a.written);
      LoadAfterEndedLines(f, file, line[..a.written]);
    } else if a.written == 0 {
      assert Write(f, file, a) == file;
    } else {
      TornLineIsEndedFirst(f, file, a.record, a.written - 1);
      LoadAfterTornLine(f, file, a.record, a.written - 1);
      assert a == Append(a.record, (a.written - 1) + 1);
    }
  }

  lemma LoadAfterTornLine(f: Format, file: seq<Byte>, r: Record, k: nat)
    requires IsLineFormat(f) && k <= |ObjectText(f, r)| + 1
    ensures Load(f, file + [NEWLINE] + (ObjectText(f, r) + [NEWLINE])[..k])
         == Load(f, file) + if k < |ObjectText(f, r)| then [] else Kept(f, r)
  {
    LoadOfPiece(f, r, k);
    LoadSplitsAtNewline(f, file, (ObjectText(f, r) + [NEWLINE])[..k]);
  }

  /** From any file, after any run of appends each cut short anywhere, a reload finds
      what it found before and then exactly the records whose text was written whole. */
  lemma {:induction false} ReloadFindsLandedRecords(f: Format, file: seq<Byte>, appends: seq<Append>)
    requires IsLineFormat(f) && AllFit(f, file, appends)
    ensures Load(f, WriteAll(f, file, appends)) == Load(f, file) + Landed(f, file, appends)
    decreases appends
  {
    if appends != [] {
      var next := Write(f, file, appends[0]);
      var first := if TextLanded(f, file, appends[0]) then Kept(f, appends[0].record) else [];
      WriteAddsLandedRecord(f, file, appends[0]);
      ReloadFindsLandedRecords(f, next, appends[1..]);
      Associative(Load(f, file), first, Landed(f, next, appends[1..]));
    }
  }

  // ----- The source's object

  /** `file` is what is on disk; the source reaches it through its path. */
  class InsightsLog {
    const format: Format
    const readWrite: bool
    var records: seq<Record>
    var file: seq<Byte>

    constructor (format: Format, readWrite: bool, file: seq<Byte>)
      ensures this.format == format && this.readWrite == readWrite && this.file == file
      ensures records == Load(format, file)
    {
      this.format, this.readWrite, this.file := format, readWrite, file;
      var loaded: seq<Record> := [];
      var rest := file;
      while rest != []
        invariant Load(format, file) == loaded + Load(format, rest)
        decreases |rest|
      {
        var n := LineEnd(rest);
        var line := Trimmed(format.space, rest[..n]);
        ghost var before, left := loaded, rest;
        if line != [] {
          match Decode(format, line)
          case None =>
          case Some(r) => loaded := loaded + [r];
        }
        assert loaded == before + LineRecords(format, rest[..n]);
        rest := if n < |rest| then rest[n + 1..] else [];
        assert Load(format, left) == LineRecords(format, left[..n]) + Load(format, rest);
        Associative(before, LineRecords(format, left[..n]), Load(format, rest));
      }
      records := loaded;
    }

    /** `written` bytes reach the disk before a crash or a full disk stops the write. */
    method AppendRecord(record: Record, written: nat)
      requires Fits(format, file, Append(record, written))
      modifies this
      ensures records == old(records) + [record]
      ensures file == if readWrite then Write(format, old(file), Append(record, written)) else old(file)
    {
      records := records + [record];
      if readWrite {
        var line := ObjectText(format, record) + [NEWLINE];
        if |file| > 0 && file[|file| - 1] != NEWLINE {
          line := [NEWLINE] + line;
        }
        assert line == Appended(format, file, record);
        file := file + line[..written];
      }
    }

    method Clear(present: bool, removed: bool) returns (ok: bool)
      modifies this
      ensures ok <==> !(readWrite && present && !removed)
      ensures !ok ==> records == old(records) && file == old(file)
      ensures ok ==> records == [] && file == if readWrite && present then [] else old(file)
    {
      if readWrite && present && !removed {
        return false;
      }
      if readWrite && present {
        file := [];
      }
      records := [];
      return true;
    }
  }
}
