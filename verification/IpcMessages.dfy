/** Requests as objects on the wire, and back. */
module IpcMessages {
  import opened Wrappers
  import opened TextBasics
  import opened IpcFraming

  datatype Command =
    | Toggle | Start | Stop | Cancel | ShowMain | ShowSettings | ShowSetup | Transcribe
    | RecordStart | RecordStatus | RecordStop | Status | WatchStatus | Last | Providers
    | AddVocabulary | Quit

  const COMMAND_NAMES: seq<(Command, string)> := [
    (Toggle, "toggle"), (Start, "start"), (Stop, "stop"), (Cancel, "cancel"), (ShowMain, "showMain"),
    (ShowSettings, "showSettings"), (ShowSetup, "showSetup"), (Transcribe, "transcribe"),
    (RecordStart, "recordStart"), (RecordStatus, "recordStatus"), (RecordStop, "recordStop"),
    (Status, "status"), (WatchStatus, "watchStatus"), (Last, "last"), (Providers, "providers"),
    (AddVocabulary, "addVocabulary"), (Quit, "quit")]

  datatype OutputFormat = PlainText | Html

  datatype Overrides = Overrides(
    outputFormat: Option<OutputFormat>, writingProfile: Option<string>, spokenLanguage: Option<string>)

  datatype Request = Request(
    command: Command, overrides: Overrides, files: seq<string>, terms: seq<string>, microphoneOnly: bool)

  datatype Refusal = InvalidRequest | UnknownCommand | UnknownOutputFormat | UnknownSpokenLanguage

  datatype Reading = Read(request: Request) | Refused(refusal: Refusal)

  /** A field's name; the ones the reader does not know, it does not look at. */
  datatype Key =
    | CommandKey | OutputFormatKey | WritingProfileKey | SpokenLanguageKey
    | FilesKey | TermsKey | MicrophoneOnlyKey | Other(name: string)

  datatype Json = Null | Bool(flag: bool) | Number(value: int) | String(text: string)
                | Array(items: seq<Json>) | Object(fields: map<Key, Json>)

  /** Text rules the reader leans on. */
  datatype Rules = Rules(fold: char -> char, space: char -> bool, knownLanguage: string -> bool)

  // ----- The command table

  function NameIn(table: seq<(Command, string)>, command: Command): string {
    if table == [] then "" else if table[0].0 == command then table[0].1 else NameIn(table[1..], command)
  }

  function NamedIn(table: seq<(Command, string)>, name: string): Option<Command> {
    if table == [] then None else if table[0].1 == name then Some(table[0].0) else NamedIn(table[1..], name)
  }

  function CommandName(command: Command): string {
    NameIn(COMMAND_NAMES, command)
  }

  function CommandNamed(name: string): Option<Command> {
    NamedIn(COMMAND_NAMES, name)
  }

  /** Every command has an entry, and no two entries share a command or a name. */
  predicate IsNameTable(table: seq<(Command, string)>) {
    forall i, j :: 0 <= i < j < |table| ==> table[i].0 != table[j].0 && table[i].1 != table[j].1
  }

  lemma {:induction false} TableLookupsAgree(table: seq<(Command, string)>, i: nat)
    requires IsNameTable(table) && i < |table|
    ensures NameIn(table, table[i].0) == table[i].1 && NamedIn(table, table[i].1) == Some(table[i].0)
  {
    if i > 0 {
      TableLookupsAgree(table[1..], i - 1);
    }
  }

  function Place(command: Command): nat {
    match command
    case Toggle => 0 case Start => 1 case Stop => 2 case Cancel => 3 case ShowMain => 4
    case ShowSettings => 5 case ShowSetup => 6 case Transcribe => 7 case RecordStart => 8
    case RecordStatus => 9 case RecordStop => 10 case Status => 11 case WatchStatus => 12
    case Last => 13 case Providers => 14 case AddVocabulary => 15 case Quit => 16
  }

  /** The first rows of the table differ from every later one. */
  predicate RowsDiffer(from: nat, to: nat) {
    forall i, j :: from <= i < to && i < j < |COMMAND_NAMES| ==>
      COMMAND_NAMES[i].0 != COMMAND_NAMES[j].0 && COMMAND_NAMES[i].1 != COMMAND_NAMES[j].1
  }

  lemma EarlyRowsDiffer()
    ensures RowsDiffer(0, 2)
  {
  }

  lemma LateRowsDiffer()
    ensures RowsDiffer(8, 17)
  {
  }

  lemma CommandNamesRoundTrip(command: Command)
    ensures CommandNamed(CommandName(command)) == Some(command)
  {
    var i := Place(command);
    assert COMMAND_NAMES[i].0 == command;
    EarlyRowsDiffer();
    LateRowsDiffer();
    assert IsNameTable(COMMAND_NAMES) by {
      forall i, j | 0 <= i < j < |COMMAND_NAMES|
        ensures COMMAND_NAMES[i].0 != COMMAND_NAMES[j].0 && COMMAND_NAMES[i].1 != COMMAND_NAMES[j].1
      {
        assert i < 2 || 2 <= i < 8 || 8 <= i < 17;
      }
    }
    TableLookupsAgree(COMMAND_NAMES, i);
  }

  // ----- Output formats

  function FormatName(format: OutputFormat): string {
    match format
    case PlainText => "plain"
    case Html => "html"
  }

  /** Equal whatever the case. */
  predicate SameFolded(rules: Rules, a: string, b: string) {
    |a| == |b| && forall i :: 0 <= i < |a| ==> rules.fold(a[i]) == rules.fold(b[i])
  }

  function FormatFromString(rules: Rules, value: string): Option<OutputFormat> {
    var name := Trimmed(rules.space, value);
    if SameFolded(rules, name, FormatName(PlainText)) then Some(PlainText)
    else if SameFolded(rules, name, FormatName(Html)) then Some(Html)
    else None
  }

  /** The letters at the ends of the format names are not white space. */
  predicate PlainLetters(rules: Rules) {
    !rules.space('p') && !rules.space('n') && !rules.space('h') && !rules.space('l')
  }

  lemma FormatNamesRoundTrip(rules: Rules, format: OutputFormat)
    requires PlainLetters(rules)
    ensures FormatFromString(rules, FormatName(format)) == Some(format)
  {
    var name := FormatName(format);
    assert name[0] in "ph" && name[|name| - 1] in "nl";
    assert Trimmed(rules.space, name) == name;
  }

  predicate SpellsUpToCase(rules: Rules, text: string, name: string) {
    |text| == |name| && forall i :: 0 <= i < |name| ==> rules.fold(text[i]) == rules.fold(name[i])
  }

  /** A format is named in any case, with white space around it, and by nothing else. */
  lemma FormatsAreNamed(rules: Rules, value: string)
    ensures var text := Trimmed(rules.space, value);
            && (FormatFromString(rules, value) == Some(PlainText) <==> SpellsUpToCase(rules, text, "plain"))
            && (FormatFromString(rules, value) == Some(Html) <==>
                  SpellsUpToCase(rules, text, "html") && !SpellsUpToCase(rules, text, "plain"))
  {
  }

  // ----- Writing and reading requests

  function Strings(items: seq<string>): (json: seq<Json>)
    ensures |json| == |items| && forall i :: 0 <= i < |items| ==> json[i] == String(items[i])
  {
    seq(|items|, i requires 0 <= i < |items| => String(items[i]))
  }

  /** A text field, when there is a text to write. */
  function PutText(o: map<Key, Json>, key: Key, text: Option<string>): map<Key, Json> {
    if text.Some? then o[key := String(text.value)] else o
  }

  /** A list field, left out when the list is empty. */
  function PutList(o: map<Key, Json>, key: Key, items: seq<string>): map<Key, Json> {
    if items != [] then o[key := Array(Strings(items))] else o
  }

  function FormatText(format: Option<OutputFormat>): Option<string> {
    if format.Some? then Some(FormatName(format.value)) else None
  }

  /** The fields a request is written with. */
  function Encoded(r: Request): map<Key, Json> {
    var v := r.overrides;
    var o := map[CommandKey := String(CommandName(r.command))];
    var o := PutText(o, OutputFormatKey, FormatText(v.outputFormat));
    var o := PutText(o, WritingProfileKey, v.writingProfile);
    var o := PutText(o, SpokenLanguageKey, v.spokenLanguage);
    var o := PutList(PutList(o, FilesKey, r.files), TermsKey, r.terms);
    if r.microphoneOnly then o[MicrophoneOnlyKey := Bool(true)] else o
  }

  /** A field read as text: anything that is not text reads as empty. */
  function Text(o: map<Key, Json>, key: Key): string {
    if key in o && o[key].String? then o[key].text else ""
  }

  /** Every item, when they are all text. */
  function TextItems(items: seq<Json>): Option<seq<string>> {
    if items == [] then Some([])
    else
      var front := TextItems(items[..|items| - 1]);
      var last := items[|items| - 1];
      if front.Some? && last.String? then Some(front.value + [last.text]) else None
  }

  /** A list of strings: an absent field is an empty list, anything else is not one. */
  function StringList(o: map<Key, Json>, key: Key): Option<seq<string>> {
    if key !in o then Some([])
    else if !o[key].Array? then None
    else TextItems(o[key].items)
  }

  /** A list is read from nothing, or from an array of texts and nothing else. */
  lemma {:induction false} ListsAreTexts(items: seq<Json>)
    ensures TextItems(items).Some? <==> forall i :: 0 <= i < |items| ==> items[i].String?
    ensures TextItems(items).Some? ==>
              |TextItems(items).value| == |items|
              && forall i :: 0 <= i < |items| && items[i].String? ==> TextItems(items).value[i] == items[i].text
  {
    if items != [] {
      ListsAreTexts(items[..|items| - 1]);
    }
  }

  lemma ListFieldsRead(o: map<Key, Json>, key: Key)
    ensures key !in o ==> StringList(o, key) == Some([])
    ensures key in o && !o[key].Array? ==> StringList(o, key) == None
    ensures key in o && o[key].Array? ==>
              (StringList(o, key) == None <==> exists i :: 0 <= i < |o[key].items| && !o[key].items[i].String?)
  {
    if key in o && o[key].Array? {
      ListsAreTexts(o[key].items);
    }
  }

  datatype FormatField = Absent | Named(format: OutputFormat) | Unknown

  function ReadFormat(rules: Rules, text: string): FormatField {
    if text == "" then Absent
    else match FormatFromString(rules, text)
      case None => Unknown
      case Some(format) => Named(format)
  }

  /** What a request's fields, as read, make of it: the first thing wrong refuses it,
      and an empty text is a field left out. */
  function Assembled(rules: Rules, command: Option<Command>, format: FormatField, profile: string, language: string,
                     files: Option<seq<string>>, terms: Option<seq<string>>, microphoneOnly: bool): Reading
  {
    if command.None? then Refused(UnknownCommand)
    else if format.Unknown? then Refused(UnknownOutputFormat)
    else if language != "" && !rules.knownLanguage(language) then Refused(UnknownSpokenLanguage)
    else if files.None? || terms.None? then Refused(InvalidRequest)
    else
      Read(Request(
        command.value,
        Overrides(
          if format.Named? then Some(format.format) else None,
          if profile == "" then None else Some(profile),
          if language == "" then None else Some(language)),
        files.value, terms.value, microphoneOnly))
  }

  function Flag(o: map<Key, Json>, key: Key): bool {
    key in o && o[key] == Bool(true)
  }

  function Decoded(rules: Rules, o: map<Key, Json>): Reading {
    Assembled(rules, CommandNamed(Text(o, CommandKey)), ReadFormat(rules, Text(o, OutputFormatKey)), Text(o, WritingProfileKey),
              Text(o, SpokenLanguageKey), StringList(o, FilesKey), StringList(o, TermsKey),
              Flag(o, MicrophoneOnlyKey))
  }

  lemma {:induction false} StringsRoundTrip(items: seq<string>)
    ensures TextItems(Strings(items)) == Some(items)
  {
    if items != [] {
      StringsRoundTrip(items[..|items| - 1]);
      assert Strings(items)[..|items| - 1] == Strings(items[..|items| - 1]);
      assert items == items[..|items| - 1] + [items[|items| - 1]];
    }
  }

  function TextOrEmpty(text: Option<string>): string {
    if text.Some? then text.value else ""
  }

  /** What an encoded request's fields read as, one by one. */
  lemma EncodedCommand(r: Request)
    ensures Text(Encoded(r), CommandKey) == CommandName(r.command)
  {
  }

  lemma EncodedFlag(r: Request)
    ensures Flag(Encoded(r), MicrophoneOnlyKey) == r.microphoneOnly
  {
  }

  lemma EncodedFormat(r: Request)
    ensures Text(Encoded(r), OutputFormatKey) == TextOrEmpty(FormatText(r.overrides.outputFormat))
  {
  }

  lemma EncodedProfile(r: Request)
    ensures Text(Encoded(r), WritingProfileKey) == TextOrEmpty(r.overrides.writingProfile)
  {
  }

  lemma EncodedLanguage(r: Request)
    ensures Text(Encoded(r), SpokenLanguageKey) == TextOrEmpty(r.overrides.spokenLanguage)
  {
  }

  lemma EncodedLists(r: Request)
    ensures StringList(Encoded(r), FilesKey) == Some(r.files)
    ensures StringList(Encoded(r), TermsKey) == Some(r.terms)
  {
    StringsRoundTrip(r.files);
    StringsRoundTrip(r.terms);
  }

  /** What a client must have filled in for its request to arrive as it was. */
  predicate Arrives(rules: Rules, r: Request) {
    && r.overrides.writingProfile != Some("")
    && (r.overrides.spokenLanguage.Some? ==>
          r.overrides.spokenLanguage.value != "" && rules.knownLanguage(r.overrides.spokenLanguage.value))
  }

  lemma FormatReadsBack(rules: Rules, format: Option<OutputFormat>)
    requires PlainLetters(rules)
    ensures ReadFormat(rules, TextOrEmpty(FormatText(format))) == if format.Some? then Named(format.value) else Absent
  {
    if format.Some? {
      FormatNamesRoundTrip(rules, format.value);
    }
  }

  lemma EncodedRequestAssembles(rules: Rules, r: Request)
    requires PlainLetters(rules)
    ensures Decoded(rules, Encoded(r))
         == Assembled(rules, Some(r.command),
                      if r.overrides.outputFormat.Some? then Named(r.overrides.outputFormat.value) else Absent,
                      TextOrEmpty(r.overrides.writingProfile), TextOrEmpty(r.overrides.spokenLanguage),
                      Some(r.files), Some(r.terms), r.microphoneOnly)
  {
    FormatReadsBack(rules, r.overrides.outputFormat);
    CommandNamesRoundTrip(r.command);
    EncodedCommand(r);
    EncodedFlag(r);
    EncodedFormat(r);
    EncodedProfile(r);
    EncodedLanguage(r);
    EncodedLists(r);
  }

  /** A request reads back as itself exactly when no override is empty and its
      language is known. */
  lemma RequestRoundTripsIff(rules: Rules, r: Request)
    requires PlainLetters(rules)
    ensures Decoded(rules, Encoded(r)) == Read(r) <==> Arrives(rules, r)
  {
    EncodedRequestAssembles(rules, r);
  }

  /** One that does not: a start with an empty profile arrives without one. */
  lemma EmptyProfileIsLost(rules: Rules)
    requires PlainLetters(rules)
    ensures var r := Request(Start, Overrides(None, Some(""), None), [], [], false);
            Decoded(rules, Encoded(r)) != Read(r)
            && Decoded(rules, Encoded(r)) == Read(r.(overrides := Overrides(None, None, None)))
  {
    EncodedRequestAssembles(rules, Request(Start, Overrides(None, Some(""), None), [], [], false));
  }

  /** Every field stands under its own name. */
  lemma FieldsAreNamed(r: Request)
    ensures var o := Encoded(r);
            && Text(o, CommandKey) == CommandName(r.command)
            && Text(o, OutputFormatKey) == (match r.overrides.outputFormat
                                            case None => ""
                                            case Some(format) => if format == Html then "html" else "plain")
            && Text(o, WritingProfileKey) == TextOrEmpty(r.overrides.writingProfile)
            && Text(o, SpokenLanguageKey) == TextOrEmpty(r.overrides.spokenLanguage)
            && Flag(o, MicrophoneOnlyKey) == r.microphoneOnly
            && StringList(o, FilesKey) == Some(r.files) && StringList(o, TermsKey) == Some(r.terms)
  {
    EncodedCommand(r);
    EncodedFlag(r);
    EncodedFormat(r);
    EncodedProfile(r);
    EncodedLanguage(r);
    EncodedLists(r);
  }

  /** What is refused and why, the first reason in this order; anything else is read as it
      stands, an empty text as a field left out. */
  predicate IsReading(
    reading: Reading, command: Option<Command>, format: FormatField, profile: string, language: string,
    known: bool, files: Option<seq<string>>, terms: Option<seq<string>>, microphoneOnly: bool)
  {
    if command == None then reading == Refused(UnknownCommand)
    else if format == Unknown then reading == Refused(UnknownOutputFormat)
    else if language != "" && !known then reading == Refused(UnknownSpokenLanguage)
    else if files == None || terms == None then reading == Refused(InvalidRequest)
    else
      && reading.Read?
      && Some(reading.request.command) == command && Some(reading.request.files) == files
      && Some(reading.request.terms) == terms && reading.request.microphoneOnly == microphoneOnly
      && TextOrEmpty(reading.request.overrides.writingProfile) == profile
      && reading.request.overrides.writingProfile != Some("")
      && TextOrEmpty(reading.request.overrides.spokenLanguage) == language
      && reading.request.overrides.spokenLanguage != Some("")
      && reading.request.overrides.outputFormat == if format.Named? then Some(format.format) else None
  }

  lemma AssembledIsReading(
    rules: Rules, command: Option<Command>, format: FormatField, profile: string, language: string,
    files: Option<seq<string>>, terms: Option<seq<string>>, microphoneOnly: bool)
    ensures IsReading(Assembled(rules, command, format, profile, language, files, terms, microphoneOnly),
                      command, format, profile, language, rules.knownLanguage(language), files, terms, microphoneOnly)
  {
  }

  lemma ReadFormatIs(rules: Rules, text: string)
    ensures ReadFormat(rules, text) == Absent <==> text == ""
    ensures ReadFormat(rules, text) == Unknown <==> text != "" && FormatFromString(rules, text) == None
    ensures ReadFormat(rules, text).Named? ==> FormatFromString(rules, text) == Some(ReadFormat(rules, text).format)
  {
  }

  /** Of any object at all, whoever wrote it. */
  lemma ObjectsAreRead(rules: Rules, o: map<Key, Json>)
    ensures IsReading(Decoded(rules, o), CommandNamed(Text(o, CommandKey)),
                      ReadFormat(rules, Text(o, OutputFormatKey)), Text(o, WritingProfileKey),
                      Text(o, SpokenLanguageKey), rules.knownLanguage(Text(o, SpokenLanguageKey)),
                      StringList(o, FilesKey), StringList(o, TermsKey),
                      MicrophoneOnlyKey in o && o[MicrophoneOnlyKey] == Bool(true))
  {
    AssembledIsReading(rules, CommandNamed(Text(o, CommandKey)), ReadFormat(rules, Text(o, OutputFormatKey)),
                       Text(o, WritingProfileKey), Text(o, SpokenLanguageKey), StringList(o, FilesKey),
                       StringList(o, TermsKey), Flag(o, MicrophoneOnlyKey));
  }

  /** A frame that is no object is refused, whatever it holds. */
  lemma BadFramesAreRefused(rules: Rules, codec: Codec, frame: seq<Byte>)
    ensures codec.parse(frame).None? ==> ReadFrame(rules, codec, frame) == Refused(InvalidRequest)
    ensures codec.parse(frame).Some? ==> ReadFrame(rules, codec, frame) == Decoded(rules, codec.parse(frame).value)
  {
  }

  // ----- From requests to bytes to requests

  /** Printing and parsing objects, both someone else's. */
  datatype Codec = Codec(text: map<Key, Json> -> seq<Byte>, parse: seq<Byte> -> Option<map<Key, Json>>,
                         space: Byte -> bool)

  function SyntaxOf(codec: Codec): Syntax {
    Syntax(bytes => codec.parse(bytes).Some?, codec.space)
  }

  /** A printed request parses back, and is a text: one line, not blank, and no part of
      it is an object. */
  ghost predicate Carries(codec: Codec, o: map<Key, Json>) {
    codec.parse(codec.text(o)) == Some(o) && IsText(SyntaxOf(codec), codec.text(o))
  }

  ghost predicate IsCodec(codec: Codec) {
    codec.parse([]) == None && forall r :: Carries(codec, Encoded(r))
  }

  function ReadFrame(rules: Rules, codec: Codec, frame: seq<Byte>): Reading {
    match codec.parse(frame)
    case None => Refused(InvalidRequest)
    case Some(o) => Decoded(rules, o)
  }

  function ReadFrames(rules: Rules, codec: Codec, frames: seq<seq<Byte>>): seq<Reading> {
    seq(|frames|, i requires 0 <= i < |frames| => ReadFrame(rules, codec, frames[i]))
  }

  function Texts(codec: Codec, requests: seq<Request>): seq<seq<Byte>> {
    seq(|requests|, i requires 0 <= i < |requests| => codec.text(Encoded(requests[i])))
  }

  /** Clients' requests, printed, joined and cut into reads anywhere, arrive as they
      were sent, in order. */
  lemma RequestsArriveHoweverCut(rules: Rules, codec: Codec, requests: seq<Request>, chunks: seq<seq<Byte>>)
    requires IsCodec(codec) && PlainLetters(rules)
    requires forall r :: r in requests ==> Arrives(rules, r)
    requires Joined(chunks) == Stream(Texts(codec, requests))
    requires |Stream(Texts(codec, requests))| <= MAXIMUM_REQUEST_BYTES
    ensures var reader := ReadAll(SyntaxOf(codec), FRESH, chunks);
            && !reader.hungUp && reader.buffer == []
            && ReadFrames(rules, codec, reader.delivered)
            == seq(|requests|, i requires 0 <= i < |requests| => Read(requests[i]))
  {
    var texts := Texts(codec, requests);
    PrintedRequestsAreTexts(codec, requests);
    assert ReadAll(SyntaxOf(codec), FRESH, chunks) == Reader(texts, [], false) by {
      FramingIgnoresChunking(SyntaxOf(codec), texts, chunks);
    }
    forall i | 0 <= i < |requests|
      ensures ReadFrame(rules, codec, texts[i]) == Read(requests[i])
    {
      PrintedRequestReadsBack(rules, codec, requests[i]);
    }
  }

  lemma PrintedRequestsAreTexts(codec: Codec, requests: seq<Request>)
    requires IsCodec(codec)
    ensures AreTexts(SyntaxOf(codec), Texts(codec, requests))
  {
    var texts := Texts(codec, requests);
    assert !SyntaxOf(codec).isObject([]);
    forall t | t in texts
      ensures IsText(SyntaxOf(codec), t)
    {
      var i :| 0 <= i < |texts| && texts[i] == t;
      assert Carries(codec, Encoded(requests[i]));
    }
  }

  lemma PrintedRequestReadsBack(rules: Rules, codec: Codec, r: Request)
    requires IsCodec(codec) && PlainLetters(rules) && Arrives(rules, r)
    ensures ReadFrame(rules, codec, codec.text(Encoded(r))) == Read(r)
  {
    assert Carries(codec, Encoded(r));
    RequestRoundTripsIff(rules, r);
  }

  // ----- The source's loops

  method ReadStringList(o: map<Key, Json>, key: Key) returns (strings: Option<seq<string>>)
    ensures strings == StringList(o, key)
  {
    if key !in o {
      return Some([]);
    }
    if !o[key].Array? {
      return None;
    }
    var items := o[key].items;
    var texts: seq<string> := [];
    for i := 0 to |items|
      invariant TextItems(items[..i]) == Some(texts)
    {
      assert items[..i + 1][..i] == items[..i];
      if !items[i].String? {
        NotAllText(items, i + 1);
        return None;
      }
      texts := texts + [items[i].text];
    }
    assert items[..|items|] == items;
    return Some(texts);
  }

  lemma {:induction false} NotAllText(items: seq<Json>, n: nat)
    requires n <= |items| && TextItems(items[..n]) == None
    ensures TextItems(items) == None
    decreases |items|
  {
    if n == |items| {
      assert items[..n] == items;
    } else {
      assert items[..|items| - 1][..n] == items[..n];
      NotAllText(items[..|items| - 1], n);
    }
  }

  method RequestFrame(r: Request) returns (o: map<Key, Json>)
    ensures o == Encoded(r)
  {
    var v := r.overrides;
    o := map[CommandKey := String(CommandName(r.command))];
    ghost var expected := PutText(o, OutputFormatKey, FormatText(v.outputFormat));
    if v.outputFormat.Some? {
      o := o[OutputFormatKey := String(FormatName(v.outputFormat.value))];
    }
    assert o == expected;
    expected := PutText(o, WritingProfileKey, v.writingProfile);
    if v.writingProfile.Some? {
      o := o[WritingProfileKey := String(v.writingProfile.value)];
    }
    assert o == expected;
    expected := PutText(o, SpokenLanguageKey, v.spokenLanguage);
    if v.spokenLanguage.Some? {
      o := o[SpokenLanguageKey := String(v.spokenLanguage.value)];
    }
    assert o == expected;
    expected := PutList(PutList(o, FilesKey, r.files), TermsKey, r.terms);
    if r.files != [] {
      o := o[FilesKey := Array(Strings(r.files))];
    }
    if r.terms != [] {
      o := o[TermsKey := Array(Strings(r.terms))];
    }
    assert o == expected;
    if r.microphoneOnly {
      o := o[MicrophoneOnlyKey := Bool(true)];
    }
  }

  method RequestFromFrame(rules: Rules, codec: Codec, frame: seq<Byte>) returns (reading: Reading)
    ensures reading == ReadFrame(rules, codec, frame)
  {
    var parsed := codec.parse(frame);
    if parsed.None? {
      return Refused(InvalidRequest);
    }
    var o := parsed.value;
    var command := CommandNamed(Text(o, CommandKey));
    if command.None? {
      return Refused(UnknownCommand);
    }
    var overrides := Overrides(None, None, None);
    if Text(o, OutputFormatKey) != "" {
      overrides := overrides.(outputFormat := FormatFromString(rules, Text(o, OutputFormatKey)));
      if overrides.outputFormat.None? {
        return Refused(UnknownOutputFormat);
      }
    }
    if Text(o, WritingProfileKey) != "" {
      overrides := overrides.(writingProfile := Some(Text(o, WritingProfileKey)));
    }
    if Text(o, SpokenLanguageKey) != "" {
      if !rules.knownLanguage(Text(o, SpokenLanguageKey)) {
        return Refused(UnknownSpokenLanguage);
      }
      overrides := overrides.(spokenLanguage := Some(Text(o, SpokenLanguageKey)));
    }
    var files := ReadStringList(o, FilesKey);
    var terms := ReadStringList(o, TermsKey);
    if files.None? || terms.None? {
      return Refused(InvalidRequest);
    }
    return Read(Request(command.value, overrides, files.value, terms.value, Flag(o, MicrophoneOnlyKey)));
  }
}
