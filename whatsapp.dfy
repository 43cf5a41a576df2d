/** The WhatsApp chat extractor (backend/services/whatsapp.py): each line of the exported chat
    is stripped and rewritten as Markdown, and the rewritten lines become one Document. */
module WhatsApp {
  import opened PyStrings
  import opened PyValues
  import opened Outcomes

  /** A stripped line that opens with a bracketed timestamp. */
  predicate IsTimestampLine(s: string) {
    s != [] && s[0] == '[' && ']' in s
  }

  /** The Markdown rewrite of a stripped chat line: a timestamp line is bolded whole, otherwise
      the text before the first colon is bolded as the speaker, otherwise the line is a bullet. */
  function Rewrite(s: string): (r: string)
    ensures |r| >= |s| + 2
    ensures r[0] == '-' <==> !IsTimestampLine(s) && ':' !in s
  {
    if IsTimestampLine(s) then "**" + s + "**"
    else if ':' in s then
      var i := IndexOf(s, ':');
      "**" + s[..i] + "**: " + s[i + 1..]
    else "- " + s
  }

  /** The rewrite of one raw chat line: it is stripped first, then classified. */
  function FormatLine(line: string): (r: string)
    ensures |r| >= |Strip(line)| + 2
    ensures r[0] == '-' <==> !IsTimestampLine(Strip(line)) && ':' !in Strip(line)
  {
    Rewrite(Strip(line))
  }

  /** A rewrite that opens with the bullet marker `- `. */
  predicate IsBullet(r: string) {
    |r| >= 2 && r[0] == '-' && r[1] == ' '
  }

  /** A rewrite that opens with `**[`, holds a `]` and closes with `**`: a bolded timestamp line. */
  predicate IsBoldedTimestamp(r: string) {
    |r| >= 3 && r[0] == '*' && r[1] == '*' && r[2] == '[' && ']' in r && r[|r| - 2] == '*' && r[|r| - 1] == '*'
  }

  /** Reads a speaker rewrite back: the two asterisks around the speaker and the space after
      the first colon are dropped. */
  function Unbold(r: string): string {
    var c := IndexOf(r, ':');
    if 4 <= c && c + 2 <= |r| then r[2..c - 2] + ":" + r[c + 2..] else r
  }

  /** Recovers the stripped line from its rewrite: the inverse of `Rewrite`. */
  function Unformat(r: string): string {
    if IsBullet(r) then r[2..]
    else if IsBoldedTimestamp(r) then r[2..|r| - 2]
    else Unbold(r)
  }

  /** The timestamp rule wins over the colon rule: the whole line is bolded, and can be read back. */
  lemma TimestampLineBolded(s: string)
    requires IsTimestampLine(s)
    ensures Rewrite(s) == "**" + s + "**"
    ensures Unformat(Rewrite(s)) == s
  {
    var r := "**" + s + "**";
    assert r[0] == '*';
    assert r[1] == '*' && r[2] == '[';
    var j :| 0 <= j < |s| && s[j] == ']';
    assert r[j + 2] == ']';
    assert r[|r| - 2] == '*' && r[|r| - 1] == '*';
    assert r[2..|r| - 2] == s;
  }

  /** The speaker rewrite never looks like a bolded timestamp line to `Unformat`. */
  lemma SpeakerRewriteNotTimestamp(s: string, speaker: string, message: string)
    requires s == speaker + ":" + message
    requires !IsTimestampLine(s)
    ensures var r := "**" + speaker + "**: " + message;
      !IsBoldedTimestamp(r)
  {
    var r := "**" + speaker + "**: " + message;
    if |r| >= 3 && r[2] == '[' {
      // A speaker that opens with '[' means the line does too, so the line has no ']'.
      assert r[2] == '[' && speaker != [] && speaker[0] == '[';
      assert s[0] == '[';
      assert ']' !in s;
      forall j | 0 <= j < |r|
        ensures r[j] != ']'
      {
        if 2 <= j < 2 + |speaker| {
          assert r[j] == s[j - 2];
        } else if j >= 2 + |speaker| + 4 {
          assert r[j] == s[j - 5];
        }
      }
    }
  }

  /** `Unbold` cuts a speaker rewrite at the colon that follows the speaker. */
  lemma UnboldSpeaker(speaker: string, message: string)
    requires ':' !in speaker
    ensures Unbold("**" + speaker + "**: " + message) == speaker + ":" + message
  {
    var head := "**" + speaker + "**";
    var tail := ": " + message;
    var r := head + tail;
    assert r == "**" + speaker + "**: " + message;
    assert ':' !in head;
    IndexOfAfter(head, tail, ':');
    assert IndexOf(tail, ':') == 0;
    var c := IndexOf(r, ':');
    assert c == |speaker| + 4;
    assert r[2..c - 2] == speaker by {
      assert r[2..c - 2] == head[2..|speaker| + 2];
    }
    assert r[c + 2..] == message by {
      assert r[c + 2..] == tail[2..];
    }
  }

  /** `Unformat` reads a speaker rewrite back at its first colon. */
  lemma UnformatSpeaker(speaker: string, message: string)
    requires ':' !in speaker
    requires !IsBoldedTimestamp("**" + speaker + "**: " + message)
    ensures Unformat("**" + speaker + "**: " + message) == speaker + ":" + message
  {
    var r := "**" + speaker + "**: " + message;
    assert r[1] == '*';
    UnboldSpeaker(speaker, message);
  }

  /** A line split at its first colon: the speaker is bolded and the message follows a colon
      and one added space, kept verbatim (later colons and its own leading space included). */
  lemma {:induction false} SpeakerLineSplit(s: string, speaker: string, message: string)
    requires s == speaker + ":" + message
    requires ':' !in speaker
    requires !IsTimestampLine(s)
    ensures Rewrite(s) == "**" + speaker + "**: " + message
    ensures Unformat(Rewrite(s)) == s
  {
    IndexOfAfter(speaker, ":" + message, ':');
    assert s == speaker + (":" + message);
    assert IndexOf(s, ':') == |speaker|;
    assert s[..|speaker|] == speaker;
    assert s[|speaker| + 1..] == message;
    SpeakerRewriteNotTimestamp(s, speaker, message);
    UnformatSpeaker(speaker, message);
  }

  /** A line with neither a timestamp nor a colon becomes a bullet item. */
  lemma BulletLine(s: string)
    requires !IsTimestampLine(s) && ':' !in s
    ensures Rewrite(s) == "- " + s
    ensures Unformat(Rewrite(s)) == s
  {
    assert ("- " + s)[0] == '-' && ("- " + s)[1] == ' ';
  }

  /** Every rewrite can be undone. */
  lemma RewriteRoundTrip(s: string)
    ensures Unformat(Rewrite(s)) == s
  {
    if IsTimestampLine(s) {
      TimestampLineBolded(s);
    } else if ':' in s {
      var i := IndexOf(s, ':');
      assert s == s[..i] + ":" + s[i + 1..];
      SpeakerLineSplit(s, s[..i], s[i + 1..]);
    } else {
      BulletLine(s);
    }
  }

  /** `FormatLine` loses nothing but the whitespace around the line. */
  lemma FormatLineRoundTrip(line: string)
    ensures Unformat(FormatLine(line)) == Strip(line)
  {
    RewriteRoundTrip(Strip(line));
  }

  /** A chat line as `readlines()` yields it: a line feed can only be its last character. */
  predicate IsReadLine(line: string) {
    forall k :: 0 <= k < |line| - 1 ==> line[k] != '\n'
  }

  /** The rewrite of a single line is a single line. */
  lemma RewriteHasNoNewline(s: string)
    requires '\n' !in s
    ensures '\n' !in Rewrite(s)
  {
    if !IsTimestampLine(s) && ':' in s {
      var i := IndexOf(s, ':');
      assert s == s[..i] + [s[i]] + s[i + 1..];
    }
  }

  /** The rewrite of a read line is a single line. */
  lemma FormattedLineHasNoNewline(line: string)
    requires IsReadLine(line)
    ensures '\n' !in FormatLine(line)
  {
    StripRemovesFinalNewline(line);
    RewriteHasNoNewline(Strip(line));
  }

  /** The rewrite of a whole chat, line by line. */
  function FormatAll(lines: seq<string>): (r: seq<string>)
    ensures |r| == |lines|
  {
    seq(|lines|, i requires 0 <= i < |lines| => FormatLine(lines[i]))
  }

  /** The formatting loop (whatsapp.py:27-35): one rewritten line per input line, in order. */
  method FormatChat(chatText: seq<string>) returns (formattedContent: seq<string>)
    ensures |formattedContent| == |chatText|
    ensures forall i :: 0 <= i < |chatText| ==> formattedContent[i] == FormatLine(chatText[i])
  {
    formattedContent := [];
    var n := 0;
    while n < |chatText|
      invariant 0 <= n <= |chatText|
      invariant |formattedContent| == n
      invariant forall i :: 0 <= i < n ==> formattedContent[i] == FormatLine(chatText[i])
    {
      formattedContent := formattedContent + [FormatLine(chatText[n])];
      n := n + 1;
    }
  }

  /** The document text: the rewritten lines joined by line feeds. */
  function ChatDocumentText(lines: seq<string>): string {
    Join("\n", FormatAll(lines))
  }

  /** Reading the document back line by line and undoing each rewrite gives the stripped
      chat lines, one per input line and in order. */
  lemma {:induction false} ChatDocumentRoundTrip(lines: seq<string>)
    requires lines != []
    requires forall i :: 0 <= i < |lines| ==> IsReadLine(lines[i])
    ensures Split(ChatDocumentText(lines), '\n') == FormatAll(lines)
    ensures forall i :: 0 <= i < |lines| ==>
      Unformat(Split(ChatDocumentText(lines), '\n')[i]) == Strip(lines[i])
  {
    var f := FormatAll(lines);
    forall k | 0 <= k < |f|
      ensures '\n' !in f[k]
    {
      FormattedLineHasNoNewline(lines[k]);
    }
    SplitJoin(f, '\n');
    forall i | 0 <= i < |lines|
      ensures Unformat(f[i]) == Strip(lines[i])
    {
      FormatLineRoundTrip(lines[i]);
    }
  }

  /** The `.txt` names in a directory listing, in listing order. */
  function TextFiles(listing: seq<string>): (r: seq<string>)
    ensures forall i :: 0 <= i < |r| ==> EndsWith(r[i], ".txt")
    ensures forall f :: f in listing && EndsWith(f, ".txt") <==> f in r
  {
    if listing == [] then []
    else (if EndsWith(listing[0], ".txt") then [listing[0]] else []) + TextFiles(listing[1..])
  }

  /** The filter keeps listing order: filtering two listings one after the other is
      filtering their concatenation. */
  lemma {:induction false} TextFilesAppend(a: seq<string>, b: seq<string>)
    ensures TextFiles(a + b) == TextFiles(a) + TextFiles(b)
  {
    if a == [] {
      assert a + b == b;
    } else {
      assert (a + b)[1..] == a[1..] + b;
      TextFilesAppend(a[1..], b);
    }
  }

  /** The chat file read is the first `.txt` name in listing order. */
  lemma {:induction false} FirstChatFile(listing: seq<string>)
    requires TextFiles(listing) != []
    ensures exists j :: 0 <= j < |listing| && listing[j] == TextFiles(listing)[0] &&
                        forall k :: 0 <= k < j ==> !EndsWith(listing[k], ".txt")
  {
    if EndsWith(listing[0], ".txt") {
      assert listing[0] == TextFiles(listing)[0];
    } else {
      FirstChatFile(listing[1..]);
      var j :| 0 <= j < |listing[1..]| && listing[1..][j] == TextFiles(listing[1..])[0] &&
               forall k :: 0 <= k < j ==> !EndsWith(listing[1..][k], ".txt");
      assert listing[j + 1] == TextFiles(listing)[0];
      forall k | 0 <= k < j + 1
        ensures !EndsWith(listing[k], ".txt")
      {
        if k > 0 {
          assert listing[k] == listing[1..][k - 1];
        }
      }
    }
  }

  /** `extract_whatsapp_chat` after the archive has been unpacked (whatsapp.py:14-46).
      `listing` is the unpacked folder's listing; `readLines(name)` is that file's lines,
      or `None` when it is not valid UTF-8. */
  method ExtractWhatsappChat(listing: seq<string>, readLines: string -> Option<seq<string>>)
    returns (r: Option<seq<Document>>)
    ensures TextFiles(listing) == [] ==> r == None
    ensures TextFiles(listing) != [] && readLines(TextFiles(listing)[0]).None? ==> r == None
    ensures TextFiles(listing) != [] && readLines(TextFiles(listing)[0]).Some? ==>
      r == Some([Document(ChatDocumentText(readLines(TextFiles(listing)[0]).value), [])])
  {
    var chatFiles := TextFiles(listing);
    if chatFiles == [] {
      return None;
    }
    var chatText := readLines(chatFiles[0]);
    if chatText.None? {
      return None;
    }
    var formattedContent := FormatChat(chatText.value);
    assert formattedContent == FormatAll(chatText.value);
    r := Some([Document(Join("\n", formattedContent), [])]);
  }

  /** The bracket rule takes precedence: a timestamped message such as
      `[2024-01-01] Alice: Hello` is bolded whole, not split at its colon. */
  lemma TimestampedMessageNotSplit(stamp: string, speaker: string, message: string)
    ensures var s := "[" + stamp + "] " + speaker + ":" + message;
      Rewrite(s) == "**" + s + "**" && ':' in s
  {
    var s := "[" + stamp + "] " + speaker + ":" + message;
    assert s[..1] == "[";
    assert s[|stamp| + 1] == ']';
    assert s[|stamp| + 3 + |speaker|] == ':';
    TimestampLineBolded(s);
  }
}
