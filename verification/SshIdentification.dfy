/**
 Reading a server's SSH identification (section 4.2 of RFC 4253) one byte at a time, under limits on
 the informational lines that may precede it.
 */
module SshIdentification {
  import opened Bytes
  import opened Wrappers

  const MAX_IDENTIFICATION_BYTES: nat := 255
  const MAX_PRE_BANNER_LINES: nat := 50
  const MAX_PRE_BANNER_BYTES: nat := 4096
  const PREFIX: string := "SSH-"

  datatype Error =
    | Truncated | PreBannerBytes | PreBannerLines | BareCarriageReturn | ControlCharacter
    | TooLong | RequiresCrlf | ContainsNul | NotUtf8 | InvalidAscii | InvalidPrefix
    | InvalidFields | UnsupportedProtocol | InvalidSoftware

  datatype Identification = Identification(protocol: string, software: string)

  // ----- Parsing one complete line -----

  /** The text before and after the first separator, as Rust's `split_once`. */
  function SplitOnce(s: string, separator: char): (r: Option<(string, string)>)
    ensures r.None? <==> separator !in s
    ensures r.Some? ==> s == r.value.0 + [separator] + r.value.1 && separator !in r.value.0
  {
    if s == [] then None
    else if s[0] == separator then Some(([], s[1..]))
    else
      match SplitOnce(s[1..], separator)
      case None => None
      case Some((left, right)) => Some(([s[0]] + left, right))
  }

  function SanitizeText(s: string): string {
    var kept := Filtered(s);
    if |kept| <= MAX_IDENTIFICATION_BYTES then kept else kept[..MAX_IDENTIFICATION_BYTES]
  }

  function Filtered(s: string): string {
    if s == [] then [] else (if IsControl(s[0]) then [] else [s[0]]) + Filtered(s[1..])
  }

  predicate EndsCrlf(line: string) {
    |line| >= 2 && line[|line| - 2] == '\r' && line[|line| - 1] == '\n'
  }

  function ParseIdentification(line: string): Result<Identification, Error> {
    if |line| > MAX_IDENTIFICATION_BYTES then Err(TooLong)
    else if !EndsCrlf(line) then Err(RequiresCrlf)
    else
      var content := line[..|line| - 2];
      if '\0' in content then Err(ContainsNul)
      else if !IsUtf8(content) then Err(NotUtf8)
      else if !All(content, IsPrintable) then Err(InvalidAscii)
      else if !(PREFIX <= content) then Err(InvalidPrefix)
      else ParseFields(content[|PREFIX|..])
  }

  function ParseFields(rest: string): Result<Identification, Error> {
    match SplitOnce(rest, '-')
    case None => Err(InvalidFields)
    case Some((protocol, softwareAndComment)) =>
      if protocol != "2.0" && protocol != "1.99" then Err(UnsupportedProtocol)
      else
        match ParseSoftware(softwareAndComment)
        case Err(error) => Err(error)
        case Ok(software) => Ok(Identification(protocol, software))
  }

  function ParseSoftware(text: string): Result<string, Error> {
    var (software, comment) :=
      match SplitOnce(text, ' ')
      case None => (text, None)
      case Some((software, comment)) => (software, Some(comment));
    if software == [] || !All(software, IsGraphic) then Err(InvalidSoftware)
    else
      var reported :=
        if comment.Some? && comment.value != [] then software + " " + SanitizeText(comment.value)
        else software;
      Ok(SanitizeText(reported))
  }

  /** The grammar of an identification line, and what is reported of it: the version, and the
      software name with a non-empty comment after it. */
  predicate IsIdentification(line: string, id: Identification, software: string, comment: Option<string>) {
    && |line| <= MAX_IDENTIFICATION_BYTES
    && id.protocol in {"2.0", "1.99"}
    && software != [] && All(software, IsGraphic)
    && (comment.Some? ==> All(comment.value, IsPrintable))
    && line == PREFIX + (id.protocol + "-" + (software + Comment(comment))) + "\r\n"
    && id.software == if comment == Some("") then software else software + Comment(comment)
  }

  function Comment(comment: Option<string>): string {
    if comment.Some? then " " + comment.value else ""
  }

  lemma {:induction false} SplitOnceAt(left: string, separator: char, right: string)
    requires separator !in left
    ensures SplitOnce(left + [separator] + right, separator) == Some((left, right))
  {
    var s := left + [separator] + right;
    if left != [] {
      assert s[1..] == left[1..] + [separator] + right;
      SplitOnceAt(left[1..], separator, right);
      assert [s[0]] + left[1..] == left;
    } else {
      assert s[1..] == right;
    }
  }

  /** Sanitizing does nothing to a line that passed the checks before it. */
  lemma {:induction false} SanitizeKeeps(s: string)
    requires All(s, IsPrintable)
    ensures Filtered(s) == s
  {
    if s != [] {
      SanitizeKeeps(s[1..]);
    }
  }

  lemma PrintableIsUtf8(s: string)
    requires All(s, IsPrintable)
    ensures IsUtf8(s) && '\0' !in s
  {
    AsciiIsUtf8(s);
  }

  lemma AllParts(a: string, b: string, p: char -> bool)
    ensures All(a + b, p) <==> All(a, p) && All(b, p)
  {
    if All(a + b, p) {
      assert forall i :: 0 <= i < |a| ==> a[i] == (a + b)[i];
      assert forall i :: 0 <= i < |b| ==> b[i] == (a + b)[i + |a|];
    }
  }

  lemma ParsedLine(line: string, id: Identification) returns (rest: string)
    requires ParseIdentification(line) == Ok(id)
    ensures line == PREFIX + rest + "\r\n" && |line| <= MAX_IDENTIFICATION_BYTES
    ensures All(rest, IsPrintable) && ParseFields(rest) == Ok(id)
  {
    hide ParseFields, IsUtf8;
    var content := line[..|line| - 2];
    rest := content[|PREFIX|..];
    assert line == content + "\r\n";
    assert content == PREFIX + rest;
    AllParts(PREFIX, rest, IsPrintable);
  }

  lemma ParsedSoftware(text: string, reported: string) returns (software: string, comment: Option<string>)
    requires ParseSoftware(text) == Ok(reported)
    requires All(text, IsPrintable) && |text| <= MAX_IDENTIFICATION_BYTES
    ensures IsSoftware(text, reported, software, comment)
  {
    hide SplitOnce, Filtered, All;
    SanitizeKeeps(text);
    match SplitOnce(text, ' ')
    case None =>
      software, comment := text, None;
    case Some((left, right)) =>
      software, comment := left, Some(right);
      AllParts(left + [' '], right, IsPrintable);
      AllParts(left, [' '], IsPrintable);
      SanitizeKeeps(right);
      SanitizeKeeps(left);
      assert text == left + " " + right;
  }

  lemma ParsedParts(line: string, id: Identification) returns (software: string, comment: Option<string>)
    requires ParseIdentification(line) == Ok(id)
    ensures IsIdentification(line, id, software, comment)
  {
    hide ParseIdentification, ParseSoftware, Comment;
    var rest := ParsedLine(line, id);
    var (protocol, text) := SplitOnce(rest, '-').value;
    assert rest == protocol + "-" + text;
    AllParts(protocol + ['-'], text, IsPrintable);
    software, comment := ParsedSoftware(text, id.software);
  }

  lemma SoftwareParses(text: string, reported: string, software: string, comment: Option<string>)
    requires IsSoftware(text, reported, software, comment)
    requires |text| <= MAX_IDENTIFICATION_BYTES
    ensures ParseSoftware(text) == Ok(reported) && All(text, IsPrintable)
  {
    AllParts(software, Comment(comment), IsPrintable);
    SanitizeKeeps(software);
    match comment
    case None =>
      assert text == software;
    case Some(words) =>
      AllParts([' '], words, IsPrintable);
      SanitizeKeeps(text);
      SanitizeKeeps(words);
      assert text == software + [' '] + words;
      SplitOnceAt(software, ' ', words);
  }

  /** Either version is followed by a separator that it does not contain itself. */
  lemma FieldsParse(protocol: string, text: string)
    requires protocol in {"2.0", "1.99"} && ParseSoftware(text).Ok?
    ensures ParseFields(protocol + "-" + text) == Ok(Identification(protocol, ParseSoftware(text).value))
    ensures All(protocol + "-", IsPrintable)
  {
    SplitOnceAt(protocol, '-', text);
    assert protocol + "-" + text == protocol + ['-'] + text;
  }

  lemma PrintableParses(rest: string)
    requires All(rest, IsPrintable) && |PREFIX + rest| + 2 <= MAX_IDENTIFICATION_BYTES
    ensures ParseIdentification(PREFIX + rest + "\r\n") == ParseFields(rest)
  {
    var content := PREFIX + rest;
    var line := content + "\r\n";
    assert line[..|line| - 2] == content;
    assert content[|PREFIX|..] == rest;
    AllParts(PREFIX, rest, IsPrintable);
    PrintableIsUtf8(content);
  }

  lemma GrammarParses(line: string, id: Identification, software: string, comment: Option<string>)
    requires IsIdentification(line, id, software, comment)
    ensures ParseIdentification(line) == Ok(id)
  {
    var text := software + Comment(comment);
    SoftwareParses(text, id.software, software, comment);
    FieldsParse(id.protocol, text);
    AllParts(id.protocol + "-", text, IsPrintable);
    PrintableParses(id.protocol + "-" + text);
  }

  /** The parser accepts exactly the grammar. */
  lemma ParsesExactly(line: string, id: Identification)
    ensures ParseIdentification(line) == Ok(id) <==>
            exists software, comment :: IsIdentification(line, id, software, comment)
  {
    if ParseIdentification(line) == Ok(id) {
      var software, comment := ParsedParts(line, id);
    }
    forall software, comment | IsIdentification(line, id, software, comment)
      ensures ParseIdentification(line) == Ok(id)
    {
      GrammarParses(line, id, software, comment);
    }
  }

  predicate IsSoftware(text: string, reported: string, software: string, comment: Option<string>) {
    && software != [] && All(software, IsGraphic)
    && (comment.Some? ==> All(comment.value, IsPrintable))
    && text == software + Comment(comment)
    && reported == if comment == Some("") then software else text
  }

  // ----- What a conversation must look like -----

  function Concat(lines: seq<string>): string {
    if lines == [] then [] else Concat(lines[..|lines| - 1]) + lines[|lines| - 1]
  }

  /** One line as the wire delimits it: CRLF at the end and no control byte before that. */
  predicate IsLine(line: string) {
    EndsCrlf(line) && forall i :: 0 <= i < |line| - 2 ==> !IsControl(line[i])
  }

  predicate IsPreBannerLine(line: string) {
    IsLine(line) && !(PREFIX <= line)
  }

  predicate PreBanner(lines: seq<string>) {
    && |lines| <= MAX_PRE_BANNER_LINES
    && |Concat(lines)| <= MAX_PRE_BANNER_BYTES
    && forall i :: 0 <= i < |lines| ==> IsPreBannerLine(lines[i])
  }

  /** The stream opens with bounded informational lines and then an identification that parses. */
  predicate Transcript(stream: string, lines: seq<string>, line: string, id: Identification) {
    && PreBanner(lines)
    && IsLine(line)
    && PREFIX <= line
    && ParseIdentification(line) == Ok(id)
    && Concat(lines) + line <= stream
  }

  /** Why the bytes of the unfinished or offending last line stop the reader. */
  predicate Explains(error: Error, stream: string, lines: seq<string>, tail: string) {
    && PreBanner(lines)
    && Concat(lines) + tail <= stream
    && (tail != [] ==> Unbroken(tail[..|tail| - 1]))
    && match error
       case Truncated => Concat(lines) + tail == stream && Unbroken(tail)
       case BareCarriageReturn => |tail| > 1 && tail[|tail| - 2] == '\r' && tail[|tail| - 1] != '\n'
       case ControlCharacter =>
         && tail != [] && IsControl(tail[|tail| - 1]) && tail[|tail| - 1] !in {'\r', '\n'}
       case PreBannerBytes =>
         !(tail <= PREFIX) && !(PREFIX <= tail) && |Concat(lines)| + |tail| > MAX_PRE_BANNER_BYTES
       case PreBannerLines => |lines| == MAX_PRE_BANNER_LINES && IsPreBannerLine(tail)
       case RequiresCrlf => tail != [] && tail[|tail| - 1] == '\n' && !EndsCrlf(tail)
       case TooLong => PREFIX <= tail && |tail| > MAX_IDENTIFICATION_BYTES
       case _ => IsLine(tail) && PREFIX <= tail && ParseIdentification(tail) == Err(error)
  }

  /** The results a reading may end with after `lines` and the bytes of `tail`. */
  ghost function Readings(stream: string, lines: seq<string>, tail: string): iset<Result<Identification, Error>> {
    iset r: Result<Identification, Error> |
      if r.Ok? then Transcript(stream, lines, tail, r.value) else Explains(r.error, stream, lines, tail)
  }

  /** The beginning of a line: no line feed, no control byte, a carriage return only at the end. */
  predicate Unbroken(tail: string) {
    forall i :: 0 <= i < |tail| ==> !IsControl(tail[i]) || (tail[i] == '\r' && i == |tail| - 1)
  }

  // ----- Lines are determined by the stream -----

  lemma {:induction false} ConcatPrefix(lines: seq<string>, n: nat)
    requires n <= |lines|
    ensures Concat(lines[..n]) <= Concat(lines)
  {
    if n < |lines| {
      assert lines[..|lines| - 1][..n] == lines[..n];
      ConcatPrefix(lines[..|lines| - 1], n);
    } else {
      assert lines[..n] == lines;
    }
  }

  lemma PrefixesOfOne(a: string, b: string, s: string)
    requires a <= s && b <= s
    ensures a <= b || b <= a
  {
    if |a| <= |b| {
      assert a == s[..|a|] == b[..|a|];
    } else {
      assert b == s[..|b|] == a[..|b|];
    }
  }

  lemma DropFront(front: string, a: string, b: string)
    requires front + a <= front + b
    ensures a <= b
  {
    assert (front + a)[|front|..] == a && (front + b)[|front|..] == b;
  }

  lemma LineInLine(a: string, b: string)
    requires IsLine(a) && IsLine(b) && a <= b
    ensures a == b
  {
    assert b[|a| - 1] == '\n';
  }

  /** Of two lines at the same place of one stream, one is the other. */
  lemma SameLine(front: string, a: string, b: string, s: string)
    requires IsLine(a) && IsLine(b)
    requires front + a <= s && front + b <= s
    ensures a == b
  {
    PrefixesOfOne(front + a, front + b, s);
    if front + a <= front + b {
      DropFront(front, a, b);
      LineInLine(a, b);
    } else {
      DropFront(front, b, a);
      LineInLine(b, a);
    }
  }

  /** Lines already read are the first lines of any reading of the stream. */
  lemma {:induction false} LinesAgree(a: seq<string>, b: seq<string>, n: nat, s: string)
    requires n <= |a| && n <= |b|
    requires forall i :: 0 <= i < |a| ==> IsLine(a[i])
    requires forall i :: 0 <= i < |b| ==> IsLine(b[i])
    requires Concat(a) <= s && Concat(b) <= s
    ensures a[..n] == b[..n]
  {
    if n > 0 {
      LinesAgree(a, b, n - 1, s);
      ConcatPrefix(a, n);
      ConcatPrefix(b, n);
      assert a[..n][..n - 1] == a[..n - 1] && b[..n][..n - 1] == b[..n - 1];
      SameLine(Concat(a[..n - 1]), a[n - 1], b[n - 1], s);
    }
  }

  /** A line under way at the place of a complete line is the beginning of that line. */
  lemma TailOfLine(front: string, tail: string, next: string, s: string)
    requires IsLine(next) && front + tail <= s && front + next <= s
    requires tail != [] ==> Unbroken(tail[..|tail| - 1])
    ensures tail <= next
  {
    PrefixesOfOne(front + tail, front + next, s);
    if front + tail <= front + next {
      DropFront(front, tail, next);
    } else {
      DropFront(front, next, tail);
    }
  }

  lemma ConcatAppend(lines: seq<string>, line: string)
    ensures Concat(lines + [line]) == Concat(lines) + line
  {
    assert (lines + [line])[..|lines|] == lines;
  }

  lemma LineAgrees(a: seq<string>, b: seq<string>, k: nat, s: string)
    requires k < |a| && k < |b|
    requires forall i :: 0 <= i < |a| ==> IsLine(a[i])
    requires forall i :: 0 <= i < |b| ==> IsLine(b[i])
    requires Concat(a) <= s && Concat(b) <= s
    ensures a[k] == b[k]
  {
    hide IsLine, Concat;
    LinesAgree(a, b, k + 1, s);
    assert a[..k + 1][k] == b[..k + 1][k];
  }

  /** No informational line is the identification line. */
  lemma LineCount(stream: string, lines: seq<string>, all: seq<string>, line: string, id: Identification)
    requires PreBanner(lines) && Concat(lines) <= stream
    requires Transcript(stream, all, line, id)
    ensures |lines| <= |all|
  {
    hide ParseIdentification, IsControl, Concat, EndsCrlf;
    if |lines| > |all| {
      var items := all + [line];
      ConcatAppend(all, line);
      LineAgrees(lines, items, |all|, stream);
    }
  }

  /** If the stream holds a transcript, the line being read is the next line of that transcript. */
  lemma NextLine(stream: string, lines: seq<string>, tail: string, all: seq<string>, line: string, id: Identification)
    returns (next: string)
    requires PreBanner(lines) && Concat(lines) + tail <= stream
    requires tail != [] ==> Unbroken(tail[..|tail| - 1])
    requires Transcript(stream, all, line, id)
    ensures IsLine(next) && Concat(lines) + next <= stream && tail <= next
    ensures |lines| <= |all|
    ensures |lines| < |all| ==> IsPreBannerLine(next) && |Concat(lines) + next| <= MAX_PRE_BANNER_BYTES
    ensures |lines| == |all| ==> next == line
  {
    LineCount(stream, lines, all, line, id);
    LinesAgree(lines, all, |lines|, stream);
    assert lines[..|lines|] == lines;
    if |lines| < |all| {
      next := all[|lines|];
      ConcatPrefix(all, |lines| + 1);
      assert all[..|lines| + 1][..|lines|] == lines;
      assert Concat(all[..|lines| + 1]) == Concat(lines) + next;
    } else {
      next := line;
      assert all[..|lines|] == all;
    }
    TailOfLine(Concat(lines), tail, next, stream);
  }

  /** Every reason the reader gives rules out every transcript. */
  lemma ExplainedIsRefused(error: Error, stream: string, lines: seq<string>, tail: string,
                           all: seq<string>, line: string, id: Identification)
    requires Explains(error, stream, lines, tail)
    ensures !Transcript(stream, all, line, id)
  {
    hide Concat, ParseFields;
    if Transcript(stream, all, line, id) {
      var next := NextLine(stream, lines, tail, all, line, id);
      if error.Truncated? {
        DropFront(Concat(lines), next, tail);
      } else if IsLine(tail) {
        LineInLine(tail, next);
      }
    }
  }

  // ----- The reader -----

  lemma LineIsUnbroken(tail: string)
    requires IsLine(tail)
    ensures Unbroken(tail[..|tail| - 1])
  {
  }

  /** A reading ends with one informational line too many. */
  lemma LimitExplained(stream: string, lines: seq<string>, tail: string)
    requires PreBanner(lines) && Concat(lines) + tail <= stream
    requires |lines| == MAX_PRE_BANNER_LINES && IsPreBannerLine(tail)
    ensures Err(PreBannerLines) in Readings(stream, lines, tail)
  {
    LineIsUnbroken(tail);
  }

  lemma PreBannerGrows(lines: seq<string>, line: string)
    requires PreBanner(lines) && IsPreBannerLine(line)
    requires |lines| < MAX_PRE_BANNER_LINES && |Concat(lines)| + |line| <= MAX_PRE_BANNER_BYTES
    ensures PreBanner(lines + [line]) && Concat(lines + [line]) == Concat(lines) + line
  {
    hide Concat, IsPreBannerLine;
    ConcatAppend(lines, line);
  }

  /** An informational line fits the bytes; it is the line too many, or one more of the lines read. */
  lemma LineTaken(stream: string, lines: seq<string>, tail: string)
    requires PreBanner(lines) && Concat(lines) + tail <= stream && IsPreBannerLine(tail)
    requires Bounded(|Concat(lines)|, tail) && !(tail <= PREFIX)
    ensures |Concat(lines)| + |tail| <= MAX_PRE_BANNER_BYTES
    ensures |lines| == MAX_PRE_BANNER_LINES ==> Err(PreBannerLines) in Readings(stream, lines, tail)
    ensures |lines| < MAX_PRE_BANNER_LINES ==>
              PreBanner(lines + [tail]) && Concat(lines + [tail]) == Concat(lines) + tail
  {
    hide Readings, Concat, IsLine;
    if |lines| == MAX_PRE_BANNER_LINES {
      LimitExplained(stream, lines, tail);
    } else {
      PreBannerGrows(lines, tail);
    }
  }

  lemma NothingRead()
    ensures PreBanner([]) && Concat([]) == ""
  {
  }

  /** A reading ends where the stream does. */
  lemma TruncationExplained(stream: string, lines: seq<string>, tail: string)
    requires PreBanner(lines) && Concat(lines) + tail == stream && Unbroken(tail)
    ensures Err(Truncated) in Readings(stream, lines, tail)
  {
  }

  /** The checks on one byte, which go by the line buffer; the byte joins the buffer. */
  method CheckByte(line: array<char>, lineLength: nat, byte: char, preBannerBytes: nat)
    returns (fault: Option<Error>)
    requires lineLength < line.Length
    modifies line
    ensures fault == Fault(preBannerBytes, old(line[..lineLength]) + [byte])
    ensures fault.None? ==> line[..lineLength + 1] == old(line[..lineLength]) + [byte]
  {
    if lineLength != 0 && line[lineLength - 1] == '\r' && byte != '\n' {
      return Some(BareCarriageReturn);
    }
    if byte != '\r' && byte != '\n' && IsControl(byte) {
      return Some(ControlCharacter);
    }
    line[lineLength] := byte;
    var current := line[..lineLength + 1];
    assert current == old(line[..lineLength]) + [byte];
    var couldBeIdentification := current <= PREFIX || PREFIX <= current;
    if PREFIX <= current && lineLength + 1 > MAX_IDENTIFICATION_BYTES {
      return Some(TooLong);
    }
    if !couldBeIdentification && preBannerBytes + (lineLength + 1) > MAX_PRE_BANNER_BYTES {
      return Some(PreBannerBytes);
    }
    if byte == '\n' && (lineLength + 1 < 2 || line[lineLength - 1] != '\r') {
      return Some(RequiresCrlf);
    }
    return None;
  }

  lemma FaultExplained(stream: string, lines: seq<string>, tail: string)
    requires PreBanner(lines) && Concat(lines) + tail <= stream
    requires tail != [] && Unbroken(tail[..|tail| - 1])
    ensures Fault(|Concat(lines)|, tail).Some? ==>
              Err(Fault(|Concat(lines)|, tail).value) in Readings(stream, lines, tail)
    ensures Fault(|Concat(lines)|, tail).None? && tail[|tail| - 1] != '\n' ==> Unbroken(tail)
    ensures Fault(|Concat(lines)|, tail).None? && tail[|tail| - 1] == '\n' ==> IsLine(tail)
  {
    assert forall i :: 0 <= i < |tail| - 1 ==> tail[i] == tail[..|tail| - 1][i];
  }

  /** No line that ends in a line feed is the beginning of the identification prefix. */
  lemma LineFeedEndsPrefix(tail: string)
    ensures tail != [] && tail[|tail| - 1] == '\n' ==> !(tail <= PREFIX)
  {
  }

  /** One byte joins the line under way, or stops the reader for a reason. */
  method TakeByte(stream: string, line: array<char>, lineLength: nat, byte: char, preBannerBytes: nat,
                  ghost lines: seq<string>, ghost tail: string)
    returns (fault: Option<Error>)
    requires lineLength < line.Length == MAX_PRE_BANNER_BYTES + 1 && line[..lineLength] == tail && Unbroken(tail)
    requires PreBanner(lines) && preBannerBytes == |Concat(lines)| && Concat(lines) + (tail + [byte]) <= stream
    modifies line
    ensures fault.Some? ==> Err(fault.value) in Readings(stream, lines, tail + [byte])
    ensures fault.None? ==>
              && lineLength + 1 < line.Length && line[..lineLength + 1] == tail + [byte]
              && Bounded(preBannerBytes, tail + [byte])
              && (byte != '\n' ==> Unbroken(tail + [byte]))
              && (byte == '\n' ==> IsLine(tail + [byte]) && !(tail + [byte] <= PREFIX))
  {
    hide Readings, Concat, IsControl, PreBanner, IsLine, Unbroken;
    ghost var longer := tail + [byte];
    assert longer[..|longer| - 1] == tail;
    fault := CheckByte(line, lineLength, byte, preBannerBytes);
    FaultExplained(stream, lines, longer);
    LineFeedEndsPrefix(longer);
  }

  /** A reading ends with an identification line, whatever its parser says of it. */
  lemma IdentificationExplained(stream: string, lines: seq<string>, tail: string)
    requires PreBanner(lines) && Concat(lines) + tail <= stream
    requires IsLine(tail) && PREFIX <= tail
    ensures ParseIdentification(tail) in Readings(stream, lines, tail)
  {
    hide Concat, PreBanner, IsControl;
    LineIsUnbroken(tail);
  }

  method ReadLines(stream: string)
    returns (r: Result<Identification, Error>, consumed: nat, ghost lines: seq<string>, ghost tail: string)
    ensures consumed == |Concat(lines) + tail| && consumed <= |stream| && consumed <= 4352
    ensures r in Readings(stream, lines, tail)
  {
    hide Readings, Concat, ParseIdentification, IsControl, IsLine;
    NothingRead();
    var line := new char[MAX_PRE_BANNER_BYTES + 1](_ => '\0');
    var lineLength := 0;
    var preBannerLines := 0;
    var preBannerBytes := 0;
    consumed := 0;
    lines, tail := [], [];
    while true
      invariant PreBanner(lines) && preBannerLines == |lines| && preBannerBytes == |Concat(lines)|
      invariant consumed <= |stream| && stream[..consumed] == Concat(lines) + tail
      invariant lineLength < line.Length && line[..lineLength] == tail
      invariant Unbroken(tail)
      invariant Bounded(preBannerBytes, tail)
      decreases |stream| - consumed
    {
      if consumed == |stream| {
        TruncationExplained(stream, lines, tail);
        r := Err(Truncated);
        break;
      }
      var byte := stream[consumed];
      consumed := consumed + 1;
      if lineLength == line.Length {
        assert false;
      }
      assert stream[..consumed] == Concat(lines) + (tail + [byte]);
      var fault := TakeByte(stream, line, lineLength, byte, preBannerBytes, lines, tail);
      tail := tail + [byte];
      if fault.Some? {
        r := Err(fault.value);
        break;
      }
      lineLength := lineLength + 1;
      if byte != '\n' {
        continue;
      }
      if PREFIX <= line[..lineLength] {
        r := ParseIdentification(line[..lineLength]);
        IdentificationExplained(stream, lines, tail);
        break;
      }
      preBannerLines := preBannerLines + 1;
      preBannerBytes := preBannerBytes + lineLength;
      LineTaken(stream, lines, tail);
      if preBannerLines > MAX_PRE_BANNER_LINES {
        r := Err(PreBannerLines);
        break;
      }
      if preBannerBytes > MAX_PRE_BANNER_BYTES {
        assert false;
      }
      lineLength := 0;
      lines, tail := lines + [tail], [];
    }
  }

  method ReadIdentification(stream: string) returns (r: Result<Identification, Error>, consumed: nat)
    ensures consumed <= |stream| && consumed <= 4352
    ensures r.Ok? ==>
            exists lines, line :: Transcript(stream, lines, line, r.value) && consumed == |Concat(lines) + line|
    ensures r.Err? ==>
            exists lines, tail :: Explains(r.error, stream, lines, tail) && consumed == |Concat(lines) + tail|
    ensures r.Ok? <==> exists lines, line, id :: Transcript(stream, lines, line, id)
  {
    ghost var lines, tail;
    r, consumed, lines, tail := ReadLines(stream);
    if r.Err? {
      forall all, line, id ensures !Transcript(stream, all, line, id) {
        ExplainedIsRefused(r.error, stream, lines, tail, all, line, id);
      }
    }
  }

  /** What is wrong with an unfinished line, its newest byte included. */
  function Fault(before: nat, tail: string): Option<Error>
    requires tail != []
  {
    var byte := tail[|tail| - 1];
    if |tail| > 1 && tail[|tail| - 2] == '\r' && byte != '\n' then Some(BareCarriageReturn)
    else if byte != '\r' && byte != '\n' && IsControl(byte) then Some(ControlCharacter)
    else if PREFIX <= tail && |tail| > MAX_IDENTIFICATION_BYTES then Some(TooLong)
    else if !(tail <= PREFIX) && !(PREFIX <= tail) && before + |tail| > MAX_PRE_BANNER_BYTES then
      Some(PreBannerBytes)
    else if byte == '\n' && !EndsCrlf(tail) then Some(RequiresCrlf)
    else None
  }

  /** The line under way fits the limits, whichever of them applies to it. */
  predicate Bounded(before: nat, tail: string) {
    || tail <= PREFIX
    || (PREFIX <= tail && |tail| <= MAX_IDENTIFICATION_BYTES)
    || before + |tail| <= MAX_PRE_BANNER_BYTES
  }
}
