/**
 * The deterministic builders of the message listener: which events count as
 * messages, the location body and ticket preview, media file names and the
 * random id inside them, the conversation transcript handed to the
 * responder, the queue menu and the reading of a menu choice, and the scan
 * of a contact card for phone numbers and a display name.
 */
module MessageFormat {
  import opened Strings
  import opened Records

  /** U+200E LEFT-TO-RIGHT MARK, the first character of every reply the system sends by itself. */
  const Lrm: char := '\U{200E}'

  /** The message types the listener handles. */
  const ContentTypes: set<string> := {"chat", "audio", "ptt", "video", "image", "document", "vcard", "sticker", "location"}

  // ---------------------------------------------------------------- filters

  /** `isValidMsg`: nothing from the status broadcast, and only the known content types. */
  function IsValidMsg(from: string, msgType: string): (r: bool)
    ensures r <==> from != "status@broadcast" && msgType in ContentTypes
  {
    if from == "status@broadcast" then false
    else if msgType == "chat" || msgType == "audio" || msgType == "ptt" || msgType == "video" ||
            msgType == "image" || msgType == "document" || msgType == "vcard" || msgType == "sticker" ||
            msgType == "location"
    then true
    else false
  }

  /** `/‎/.test(msg.body[0])`: the body starts with the marker (an empty body does not). */
  predicate IsMarked(body: string) {
    |body| > 0 && body[0] == Lrm
  }

  /** The filter for messages the account sent itself: marked replies, and messages with neither media nor a location, text or contact-card type. */
  predicate DropsOwnMessage(body: string, hasMedia: bool, msgType: string) {
    IsMarked(body) || (!hasMedia && msgType != "location" && msgType != "chat" && msgType != "vcard")
  }

  /** Own media passes the filter unless it is marked; own text does too. */
  lemma OwnMessagesKept(body: string, hasMedia: bool, msgType: string)
    requires !IsMarked(body)
    requires hasMedia || msgType in {"location", "chat", "vcard"}
    ensures !DropsOwnMessage(body, hasMedia, msgType)
  {
  }

  // ---------------------------------------------------------------- location

  /** A shared location; the coordinates are kept as JavaScript renders them in a string. */
  datatype Location = Location(latitude: string, longitude: string, description: string)

  function MapsUrl(latitude: string, longitude: string): string {
    "https://maps.google.com/maps?q=" + latitude + "%2C" + longitude + "&z=17&hl=pt-BR"
  }

  /** The description if it is not empty, else `"lat, lng"`. */
  function LocationLabel(loc: Location): string {
    if loc.description != "" then loc.description else loc.latitude + ", " + loc.longitude
  }

  /** `prepareLocation`'s new body: thumbnail, map link and label joined by `|`. */
  function LocationBody(body: string, loc: Location): string {
    "data:image/png;base64," + body + "|" + MapsUrl(loc.latitude, loc.longitude) + "|" + LocationLabel(loc)
  }

  /** The map link has no pipe when the coordinates have none. */
  lemma MapsUrlHasNoPipe(latitude: string, longitude: string)
    requires '|' !in latitude && '|' !in longitude
    ensures '|' !in MapsUrl(latitude, longitude)
  {
    var u := MapsUrl(latitude, longitude);
    var p, q := "https://maps.google.com/maps?q=", "&z=17&hl=pt-BR";
    assert u == p + latitude + "%2C" + longitude + q;
    assert '|' !in p && '|' !in q && '|' !in "%2C";
  }

  /** When no part contains a pipe, splitting the location body on `|` gives back its three parts. */
  lemma {:induction false} LocationBodyFields(body: string, loc: Location)
    requires '|' !in body && '|' !in loc.latitude && '|' !in loc.longitude && '|' !in loc.description
    ensures Split(LocationBody(body, loc), '|') ==
              ["data:image/png;base64," + body, MapsUrl(loc.latitude, loc.longitude), LocationLabel(loc)]
  {
    var a := "data:image/png;base64," + body;
    var b := MapsUrl(loc.latitude, loc.longitude);
    var c := LocationLabel(loc);
    assert '|' !in "data:image/png;base64,";
    assert '|' !in a;
    MapsUrlHasNoPipe(loc.latitude, loc.longitude);
    assert '|' !in ", ";
    assert '|' !in c;
    assert LocationBody(body, loc) == (a + ['|'] + b) + ['|'] + c;
    SplitAtSeparator(a + ['|'] + b, '|', c);
    SplitAtSeparator(a, '|', b);
    SplitWithoutSeparator(a, '|');
    SplitWithoutSeparator(b, '|');
    SplitWithoutSeparator(c, '|');
  }

  /** `s.split(sep)[0]`: the text before the first occurrence of `sep`, or all of `s`. */
  function FirstPiece(s: string, sep: string): (r: string)
    requires |sep| > 0
    ensures |r| <= |s| && r == s[..|r|]
    ensures forall i | 0 <= i < |r| :: !StartsWith(s[i..], sep)
    ensures r == s || StartsWith(s[|r|..], sep)
    decreases |s|
  {
    if StartsWith(s, sep) then ""
    else if |s| == 0 then ""
    else
      var rest := FirstPiece(s[1..], sep);
      assert forall i | 1 <= i <= |s| :: s[i..] == s[1..][i - 1..];
      [s[0]] + rest
  }

  /** The ticket preview of a location: the description up to the two characters `\n`, or just `Localization`. */
  function LocationPreview(loc: Location): (r: string)
    ensures loc.description == "" ==> r == "Localization"
    ensures loc.description != "" ==> StartsWith(r, "Localization - ") && StartsWith(loc.description, r[15..])
    ensures loc.description != "" ==> r == "Localization - " + FirstPiece(loc.description, "\\n")
  {
    if loc.description != "" then "Localization - " + FirstPiece(loc.description, "\\n") else "Localization"
  }

  // ---------------------------------------------------------------- media

  /** The 62 characters `makeRandomId` draws from, written as its three ranges. */
  const Alphabet: string := Capitals + Smalls + Digits
  const Capitals: string := "ABCDEFGHIJKLMNOPQRSTUVWXYZ"
  const Smalls: string := "abcdefghijklmnopqrstuvwxyz"
  const Digits: string := "0123456789"

  lemma CapitalsRange()
    ensures forall k | 0 <= k < |Capitals| :: 'A' <= Capitals[k] <= 'Z'
  {
  }

  lemma SmallsRange()
    ensures forall k | 0 <= k < |Smalls| :: 'a' <= Smalls[k] <= 'z'
  {
  }

  lemma DigitsRange()
    ensures forall k | 0 <= k < |Digits| :: '0' <= Digits[k] <= '9'
  {
  }

  /** The alphabet has no dot. */
  lemma AlphabetHasNoDot()
    ensures '.' !in Alphabet
  {
    CapitalsRange();
    SmallsRange();
    DigitsRange();
    assert '.' !in Capitals && '.' !in Smalls && '.' !in Digits;
  }

  /**
   * `makeRandomId(length)`: one character per draw; `draws[i]` is the value of
   * `Math.floor(Math.random() * 62)` at the i-th turn of the loop.
   */
  method MakeRandomId(length: nat, draws: seq<int>) returns (result: string)
    requires |draws| >= length
    requires forall i | 0 <= i < |draws| :: 0 <= draws[i] < |Alphabet|
    ensures |result| == length
    ensures forall i | 0 <= i < length :: result[i] == Alphabet[draws[i]] && result[i] in Alphabet
    ensures result == DrawnId(draws, length)
  {
    result := "";
    var counter := 0;
    while counter < length
      invariant 0 <= counter <= length
      invariant |result| == counter
      invariant forall i | 0 <= i < counter :: result[i] == Alphabet[draws[i]]
    {
      result := result + [Alphabet[draws[counter]]];
      counter := counter + 1;
    }
  }

  /** The id the first `length` draws spell out. */
  function DrawnId(draws: seq<int>, length: nat): string
    requires |draws| >= length
    requires forall i | 0 <= i < |draws| :: 0 <= draws[i] < |Alphabet|
  {
    seq(length, i requires 0 <= i < length => Alphabet[draws[i]])
  }

  /** A random id never holds a dot, so it never adds an extension to a file name. */
  lemma RandomIdHasNoDot(draws: seq<int>, length: nat)
    requires |draws| >= length
    requires forall i | 0 <= i < |draws| :: 0 <= draws[i] < |Alphabet|
    ensures '.' !in DrawnId(draws, length)
  {
    AlphabetHasNoDot();
    var id := DrawnId(draws, length);
    forall i | 0 <= i < length
      ensures id[i] != '.'
    {
      assert id[i] == Alphabet[draws[i]];
    }
  }

  function Last(pieces: seq<string>): string
    requires |pieces| >= 1
  {
    pieces[|pieces| - 1]
  }

  /** `filename.split(".").slice(-1)`: the text after the last dot (all of it without a dot). */
  function Extension(filename: string): string {
    Last(Split(filename, '.'))
  }

  /** `filename.split(".").slice(0, -1).join(".")`: the text before the last dot (empty without a dot). */
  function Stem(filename: string): string {
    var pieces := Split(filename, '.');
    Join(pieces[..|pieces| - 1], ".")
  }

  /** The name a named attachment is stored under: the random id goes in before the extension. */
  function NamedMediaFilename(filename: string, randomId: string): string {
    Stem(filename) + "." + randomId + "." + Extension(filename)
  }

  /** A name with a dot is its stem, a dot and an extension without a dot. */
  lemma {:induction false} StemAndExtension(filename: string)
    requires '.' in filename
    ensures filename == Stem(filename) + "." + Extension(filename)
    ensures '.' !in Extension(filename)
  {
    var pieces := Split(filename, '.');
    JoinOfSplit(filename, '.');
    if |pieces| == 1 {
      assert false;
    }
    assert pieces == pieces[..|pieces| - 1] + [Last(pieces)];
    JoinSnoc(pieces[..|pieces| - 1], Last(pieces), ".");
  }

  /** The stored name keeps the extension, and its stem is the old stem followed by the random id. */
  lemma {:induction false} NamedFilenameKeepsExtension(filename: string, randomId: string)
    requires '.' !in randomId
    ensures Extension(NamedMediaFilename(filename, randomId)) == Extension(filename)
    ensures Stem(NamedMediaFilename(filename, randomId)) == Stem(filename) + "." + randomId
  {
    var stem, ext := Stem(filename), Extension(filename);
    assert '.' !in ext;
    var named := NamedMediaFilename(filename, randomId);
    assert named == (stem + ['.'] + randomId) + ['.'] + ext;
    SplitAtSeparator(stem + ['.'] + randomId, '.', ext);
    SplitAtSeparator(stem, '.', randomId);
    SplitWithoutSeparator(randomId, '.');
    SplitWithoutSeparator(ext, '.');
    var pieces := Split(named, '.');
    assert pieces == Split(stem, '.') + [randomId] + [ext];
    assert pieces[..|pieces| - 1] == Split(stem, '.') + [randomId];
    JoinSnoc(Split(stem, '.'), randomId, ".");
    JoinOfSplit(stem, '.');
  }

  /** A name without a dot counts as all extension: the stored name starts with a dot and ends with the old name. */
  lemma UndottedNameBecomesExtension(filename: string, randomId: string)
    requires '.' !in filename
    ensures NamedMediaFilename(filename, randomId) == "." + randomId + "." + filename
  {
    SplitWithoutSeparator(filename, '.');
    assert Split(filename, '.')[..0] == [];
  }

  /** `mimetype.split("/")[1].split(";")[0]`; `None` where `[1]` is undefined and the call throws. */
  function MimeSubtype(mimetype: string): (r: Option<string>)
    ensures r.Some? <==> '/' in mimetype
    ensures r.Some? ==> '/' !in r.value && ';' !in r.value
    ensures r.Some? ==>
              var kind := MimeKind(mimetype);
              var end := |kind| + 1 + |r.value|;
              end <= |mimetype| && mimetype[..end] == kind + "/" + r.value && '/' !in kind &&
              (end == |mimetype| || mimetype[end] in {'/', ';'})
  {
    var parts := Split(mimetype, '/');
    if |parts| < 2 then
      assert '/' in mimetype ==> |parts| >= 2 by {
        if '/' in mimetype && |parts| < 2 {
          JoinOfSplit(mimetype, '/');
        }
      }
      None
    else
      assert '/' in mimetype by {
        if '/' !in mimetype { SplitWithoutSeparator(mimetype, '/'); }
      }
      SplitKeepsAbsence(parts[1], ';', '/');
      SubtypeBounds(mimetype);
      Some(Split(parts[1], ';')[0])
  }

  /** Where the subtype sits: after the kind and its slash, up to the next `/`, `;` or the end. */
  lemma SubtypeBounds(mimetype: string)
    requires |Split(mimetype, '/')| >= 2
    ensures var parts := Split(mimetype, '/');
            var kind := parts[0];
            var sub := Split(parts[1], ';')[0];
            var end := |kind| + 1 + |sub|;
            end <= |mimetype| && mimetype[..end] == kind + "/" + sub &&
            (end == |mimetype| || mimetype[end] in {'/', ';'})
  {
    var parts := Split(mimetype, '/');
    var kind := parts[0];
    SplitHead(mimetype, '/');
    var tail := mimetype[|kind| + 1..];
    var piece := parts[1];
    assert piece == Split(tail, '/')[0] by {
      assert parts[1..][0] == piece;
    }
    SplitHead(tail, '/');
    SplitHead(piece, ';');
    var sub := Split(piece, ';')[0];
    PrefixChain(tail, piece, sub);
    GlueAt(mimetype, |kind|, sub);
  }

  /** A prefix of a prefix is a prefix, and the character after it is the same in both. */
  lemma PrefixChain(t: string, piece: string, sub: string)
    requires |piece| <= |t| && t[..|piece|] == piece
    requires |sub| <= |piece| && piece[..|sub|] == sub
    ensures t[..|sub|] == sub
    ensures |sub| < |piece| ==> t[|sub|] == piece[|sub|]
  {
    assert t[..|sub|] == t[..|piece|][..|sub|];
  }

  /** What follows position `k` of `m`, read back as the text up to `k`, the character at `k` and `sub`. */
  lemma GlueAt(m: string, k: nat, sub: string)
    requires k + 1 + |sub| <= |m| && m[k + 1..][..|sub|] == sub
    ensures m[..k + 1 + |sub|] == m[..k] + [m[k]] + sub
  {
    assert m[..k + 1 + |sub|] == m[..k] + [m[k]] + m[k + 1..][..|sub|];
  }

  /** `mimetype.split("/")[0]`, the stored media type. */
  function MimeKind(mimetype: string): string {
    Split(mimetype, '/')[0]
  }

  /** The name an unnamed attachment is stored under: `randomId-time.subtype`, or `None` if that throws. */
  function UnnamedMediaFilename(randomId: string, now: nat, mimetype: string): (r: Option<string>)
    ensures r.Some? <==> '/' in mimetype
    ensures r.Some? ==> StartsWith(r.value, randomId + "-" + NatToString(now) + ".")
    ensures r.Some? ==> r.value == randomId + "-" + NatToString(now) + "." + MimeSubtype(mimetype).value
  {
    match MimeSubtype(mimetype)
    case None => None
    case Some(ext) =>
      var name := randomId + "-" + NatToString(now) + "." + ext;
      assert name[..|randomId + "-" + NatToString(now) + "."|] == randomId + "-" + NatToString(now) + ".";
      Some(name)
  }

  /** A downloaded attachment; an absent file name is the empty string. */
  datatype Media = Media(filename: string, mimetype: string)

  /** The name `verifyMediaMessage` stores an attachment under, or `None` where building it throws. */
  function StoredFilename(media: Media, randomId: string, now: nat): (r: Option<string>)
    ensures r.None? <==> media.filename == "" && '/' !in media.mimetype
    ensures media.filename != "" ==> r == Some(NamedMediaFilename(media.filename, randomId))
  {
    if media.filename == "" then UnnamedMediaFilename(randomId, now, media.mimetype)
    else Some(NamedMediaFilename(media.filename, randomId))
  }

  /** A named attachment keeps its extension; an unnamed one gets the subtype of its mime type. */
  lemma StoredFilenameExtension(media: Media, randomId: string, now: nat)
    requires '.' !in randomId
    requires StoredFilename(media, randomId, now).Some?
    ensures media.filename != "" ==> Extension(StoredFilename(media, randomId, now).value) == Extension(media.filename)
    ensures media.filename == "" ==>
              StoredFilename(media, randomId, now).value == randomId + "-" + NatToString(now) + "." + MimeSubtype(media.mimetype).value
  {
    if media.filename != "" {
      NamedFilenameKeepsExtension(media.filename, randomId);
    }
  }

  // ---------------------------------------------------------------- transcript

  /** The number of messages `getConversationHistory` asks for. */
  const HistoryLimit: nat := 10

  function Speaker(fromMe: bool): string {
    if fromMe then "Asistente" else "Cliente"
  }

  function TranscriptLine(m: Message): string {
    Speaker(m.fromMe) + ": " + m.body
  }

  function Reversed(s: seq<Message>): (r: seq<Message>)
    ensures |r| == |s|
    ensures forall i | 0 <= i < |s| :: r[i] == s[|s| - 1 - i]
  {
    if |s| == 0 then [] else Reversed(s[1..]) + [s[0]]
  }

  function Lines(s: seq<Message>): (r: seq<string>)
    ensures |r| == |s|
    ensures forall i | 0 <= i < |s| :: r[i] == TranscriptLine(s[i])
  {
    if |s| == 0 then [] else [TranscriptLine(s[0])] + Lines(s[1..])
  }

  /**
   * `getConversationHistory`'s text, given the ticket's messages newest first:
   * the first ten, put back in chronological order, one `Speaker: body` line each.
   */
  function Transcript(newestFirst: seq<Message>): string {
    if |newestFirst| == 0 then ""
    else
      var recent := if |newestFirst| <= HistoryLimit then newestFirst else newestFirst[..HistoryLimit];
      Join(Lines(Reversed(recent)), "\n")
  }

  /** The speaker tag of a line holds no line break. */
  lemma SpeakerOneLine(fromMe: bool)
    ensures '\n' !in Speaker(fromMe) + ": "
  {
    if fromMe {
      assert Speaker(fromMe) + ": " == "Asistente: ";
    } else {
      assert Speaker(fromMe) + ": " == "Cliente: ";
    }
  }

  /** The lines of messages with one-line bodies are themselves free of newlines. */
  lemma LinesHaveNoNewline(s: seq<Message>)
    requires forall i | 0 <= i < |s| :: '\n' !in s[i].body
    ensures forall i | 0 <= i < |s| :: '\n' !in Lines(s)[i]
  {
    forall i | 0 <= i < |s|
      ensures '\n' !in Lines(s)[i]
    {
      SpeakerOneLine(s[i].fromMe);
      assert Lines(s)[i] == (Speaker(s[i].fromMe) + ": ") + s[i].body;
    }
  }

  /** The transcript of a non-empty history is the lines of its `n` newest messages, oldest first. */
  lemma TranscriptOfRecent(newestFirst: seq<Message>, n: nat)
    requires |newestFirst| > 0
    requires n == if |newestFirst| <= HistoryLimit then |newestFirst| else HistoryLimit
    ensures Transcript(newestFirst) == Join(Lines(Reversed(newestFirst[..n])), "\n")
  {
    assert newestFirst[..|newestFirst|] == newestFirst;
  }

  /** The `n` newest messages put back in chronological order. */
  lemma RecentReversed(newestFirst: seq<Message>, n: nat)
    requires n <= |newestFirst|
    ensures |Reversed(newestFirst[..n])| == n
    ensures forall i | 0 <= i < n :: Reversed(newestFirst[..n])[i] == newestFirst[n - 1 - i]
  {
  }

  /** Lines of one-line messages, joined by line breaks, split back into the same lines. */
  lemma JoinedLinesSplit(chrono: seq<Message>)
    requires |chrono| > 0
    requires forall i | 0 <= i < |chrono| :: '\n' !in chrono[i].body
    ensures Split(Join(Lines(chrono), "\n"), '\n') == Lines(chrono)
  {
    LinesHaveNoNewline(chrono);
    SplitOfJoin(Lines(chrono), '\n');
  }

  /** With one-line bodies, the transcript holds the ten latest messages oldest first, each tagged with its origin. */
  lemma TranscriptLines(newestFirst: seq<Message>, n: nat)
    requires |newestFirst| > 0
    requires n == if |newestFirst| <= HistoryLimit then |newestFirst| else HistoryLimit
    requires forall i | 0 <= i < |newestFirst| :: '\n' !in newestFirst[i].body
    ensures |Split(Transcript(newestFirst), '\n')| == n
    ensures forall i | 0 <= i < n :: Split(Transcript(newestFirst), '\n')[i] == TranscriptLine(newestFirst[n - 1 - i])
  {
    TranscriptOfRecent(newestFirst, n);
    RecentReversed(newestFirst, n);
    var chrono := Reversed(newestFirst[..n]);
    forall i | 0 <= i < n
      ensures '\n' !in chrono[i].body
    {
      assert chrono[i] == newestFirst[n - 1 - i];
    }
    JoinedLinesSplit(chrono);
  }

  // ---------------------------------------------------------------- queue menu

  /** One menu line, `*i* - name`, without its newline. */
  function MenuEntry(index: nat, queue: Queue): string {
    "*" + NatToString(index) + "* - " + queue.name
  }

  /** The options text the `forEach` in `verifyQueue` accumulates: one line per queue, numbered from 1. */
  function MenuOptions(queues: seq<Queue>): string
    decreases |queues|
  {
    if |queues| == 0 then ""
    else MenuOptions(queues[..|queues| - 1]) + MenuEntry(|queues|, queues[|queues| - 1]) + "\n"
  }

  /** The menu entries, numbered from 1 in queue order. */
  function MenuEntries(queues: seq<Queue>): (r: seq<string>)
    ensures |r| == |queues|
    ensures forall i | 0 <= i < |queues| :: r[i] == MenuEntry(i + 1, queues[i])
    decreases |queues|
  {
    if |queues| == 0 then [] else MenuEntries(queues[..|queues| - 1]) + [MenuEntry(|queues|, queues[|queues| - 1])]
  }

  /** The `forEach` of `verifyQueue` that builds the options text. */
  method BuildOptions(queues: seq<Queue>) returns (options: string)
    ensures options == MenuOptions(queues)
  {
    options := "";
    var index := 0;
    while index < |queues|
      invariant 0 <= index <= |queues|
      invariant options == MenuOptions(queues[..index])
    {
      assert queues[..index + 1][..index] == queues[..index];
      options := options + MenuEntry(index + 1, queues[index]) + "\n";
      index := index + 1;
    }
    assert queues[..|queues|] == queues;
  }

  /** Read line by line, the options text (plus whatever follows on its last line) is the numbered entries. */
  lemma {:induction false} MenuOptionsLines(queues: seq<Queue>, tail: string)
    requires forall i | 0 <= i < |queues| :: '\n' !in queues[i].name
    requires '\n' !in tail
    ensures Split(MenuOptions(queues) + tail, '\n') == MenuEntries(queues) + [tail]
    decreases |queues|
  {
    if |queues| == 0 {
      assert MenuOptions(queues) + tail == tail;
      SplitWithoutSeparator(tail, '\n');
    } else {
      var front := queues[..|queues| - 1];
      var entry := MenuEntry(|queues|, queues[|queues| - 1]);
      assert '\n' !in NatToString(|queues|);
      assert '\n' !in entry;
      MenuOptionsLines(front, entry);
      assert MenuOptions(queues) + tail == (MenuOptions(front) + entry) + ['\n'] + tail;
      SplitAtSeparator(MenuOptions(front) + entry, '\n', tail);
      SplitWithoutSeparator(tail, '\n');
    }
  }

  /** `queues[+body - 1]`, reading the body as a decimal numeral. */
  function ChosenQueue(queues: seq<Queue>, body: string): (r: Option<Queue>)
    ensures r.Some? ==> r.value in queues
    ensures r.None? <==> ParseDecimal(body).None? || !(1 <= ParseDecimal(body).value <= |queues|)
  {
    match ParseDecimal(body)
    case Some(n) => if 1 <= n <= |queues| then Some(queues[n - 1]) else None
    case None => None
  }

  /** Replying with the number shown in front of a queue picks that queue. */
  lemma SelectionPicksQueue(queues: seq<Queue>, n: nat)
    requires 1 <= n <= |queues|
    ensures ChosenQueue(queues, NatToString(n)) == Some(queues[n - 1])
    ensures StartsWith(MenuEntries(queues)[n - 1], "*" + NatToString(n) + "* - ")
  {
    ParseOfNatToString(n);
    var e := MenuEntries(queues)[n - 1];
    assert e == ("*" + NatToString(n) + "* - ") + queues[n - 1].name;
  }

  // ---------------------------------------------------------------- contact card

  /** The values of one line that contain a `+`, in order. */
  function PlusValues(values: seq<string>): (r: seq<string>)
    ensures forall i | 0 <= i < |r| :: '+' in r[i]
    decreases |values|
  {
    if |values| == 0 then []
    else PlusValues(values[..|values| - 1]) + (if '+' in values[|values| - 1] then [values[|values| - 1]] else [])
  }

  /** The numbers the card scan collects from its lines: every `:`-separated value with a `+`. */
  function CardNumbers(lines: seq<string>): (r: seq<string>)
    ensures forall i | 0 <= i < |r| :: '+' in r[i]
    decreases |lines|
  {
    if |lines| == 0 then []
    else CardNumbers(lines[..|lines| - 1]) + PlusValues(Split(lines[|lines| - 1], ':'))
  }

  /** `values[ind + 1]`, which is undefined after the last value. */
  function ValueAfter(values: seq<string>, ind: nat): Option<string> {
    if ind + 1 < |values| then Some(values[ind + 1]) else None
  }

  /** The name after scanning the first `k` values of a line, starting from `prior`. */
  function NameScan(values: seq<string>, k: nat, prior: Option<string>): Option<string>
    requires k <= |values|
    decreases k
  {
    if k == 0 then prior
    else if Contains(values[k - 1], "FN") then ValueAfter(values, k - 1)
    else NameScan(values, k - 1, prior)
  }

  /** The display name the card scan ends with: the value after the last `FN` match, starting from `""`. */
  function CardName(lines: seq<string>): Option<string>
    decreases |lines|
  {
    if |lines| == 0 then Some("")
    else
      var values := Split(lines[|lines| - 1], ':');
      NameScan(values, |values|, CardName(lines[..|lines| - 1]))
  }

  /** The nested loops of the contact-card branch of `handleMessage`. */
  method ScanCard(body: string) returns (numbers: seq<string>, name: Option<string>)
    ensures numbers == CardNumbers(Split(body, '\n'))
    ensures name == CardName(Split(body, '\n'))
  {
    var lines := Split(body, '\n');
    numbers := [];
    name := Some("");
    var index := 0;
    while index < |lines|
      invariant 0 <= index <= |lines|
      invariant numbers == CardNumbers(lines[..index])
      invariant name == CardName(lines[..index])
    {
      numbers, name := ScanLine(Split(lines[index], ':'), numbers, name);
      CardStep(lines, index);
      index := index + 1;
    }
    assert lines[..|lines|] == lines;
  }

  /** Scanning one more line of the card. */
  lemma CardStep(lines: seq<string>, index: nat)
    requires index < |lines|
    ensures CardNumbers(lines[..index + 1]) == CardNumbers(lines[..index]) + PlusValues(Split(lines[index], ':'))
    ensures var values := Split(lines[index], ':');
            CardName(lines[..index + 1]) == NameScan(values, |values|, CardName(lines[..index]))
  {
    assert lines[..index + 1][..index] == lines[..index];
  }

  /** The inner loop over the `:`-separated values of one card line. */
  method ScanLine(values: seq<string>, before: seq<string>, prior: Option<string>)
    returns (numbers: seq<string>, name: Option<string>)
    ensures numbers == before + PlusValues(values)
    ensures name == NameScan(values, |values|, prior)
  {
    numbers, name := before, prior;
    var ind := 0;
    while ind < |values|
      invariant 0 <= ind <= |values|
      invariant numbers == before + PlusValues(values[..ind])
      invariant name == NameScan(values, ind, prior)
    {
      assert values[..ind + 1][..ind] == values[..ind];
      if '+' in values[ind] {
        numbers := numbers + [values[ind]];
      }
      if Contains(values[ind], "FN") {
        name := ValueAfter(values, ind);
      }
      ind := ind + 1;
    }
    assert values[..|values|] == values;
  }

  lemma {:induction false} PlusValuesMembers(values: seq<string>, v: string)
    ensures v in PlusValues(values) <==> v in values && '+' in v
    decreases |values|
  {
    if |values| > 0 {
      PlusValuesMembers(values[..|values| - 1], v);
      assert values == values[..|values| - 1] + [values[|values| - 1]];
    }
  }

  /** A value is on some line of a card when it is on some earlier line or on the last one. */
  lemma OnSomeLineSnoc(lines: seq<string>, front: seq<string>, v: string)
    requires |lines| > 0 && front == lines[..|lines| - 1]
    ensures (exists j | 0 <= j < |lines| :: v in Split(lines[j], ':')) <==>
            (exists j | 0 <= j < |front| :: v in Split(front[j], ':')) || v in Split(lines[|lines| - 1], ':')
  {
    if exists j | 0 <= j < |lines| :: v in Split(lines[j], ':') {
      var j :| 0 <= j < |lines| && v in Split(lines[j], ':');
      if j < |lines| - 1 {
        assert front[j] == lines[j];
      }
    }
    if exists j | 0 <= j < |front| :: v in Split(front[j], ':') {
      var j :| 0 <= j < |front| && v in Split(front[j], ':');
      assert lines[j] == front[j];
    }
  }

  /** The collected numbers are exactly the values with a `+` on some line of the card. */
  lemma {:induction false} CardNumbersMembers(lines: seq<string>, v: string)
    ensures v in CardNumbers(lines) <==> '+' in v && exists j | 0 <= j < |lines| :: v in Split(lines[j], ':')
    decreases |lines|
  {
    if |lines| > 0 {
      var front := lines[..|lines| - 1];
      CardNumbersMembers(front, v);
      PlusValuesMembers(Split(lines[|lines| - 1], ':'), v);
      OnSomeLineSnoc(lines, front, v);
    }
  }

  /** A `FN` value at the end of the last line that has one leaves the name undefined. */
  lemma TrailingFnLeavesNameUndefined(lines: seq<string>)
    requires |lines| > 0
    requires var values := Split(lines[|lines| - 1], ':'); Contains(values[|values| - 1], "FN")
    ensures CardName(lines).None?
  {
  }
}
