/** The browser side of public/client.js: the room address as lowercase hex
    of the phrase's SHA-256 digest, the trimmed-empty guards of the join and
    send handlers, the system / own / other classification of incoming
    messages and the shortened room id shown in the header. The page itself
    is reduced to the fields the handlers read and write; what the client
    sends over the socket is recorded in a ghost outbox. */
module ChatClient {
  import opened Wrappers
  import opened WebPlatform
  import ChatServer

  // ---------------------------------------------------------------------------
  // Room address: `hashPhrase`

  /** The digit `Number.prototype.toString(16)` writes for `d`: `0-9`, then
      lowercase `a-f`. */
  function HexDigit(d: nat): (c: char)
    requires d < 16
    ensures IsHexDigit(c)
  {
    if d < 10 then ('0' as int + d) as char else ('a' as int + d - 10) as char
  }

  /** `n.toString(16)`. */
  function ToBase16(n: nat): string
    decreases n
  {
    if n < 16 then [HexDigit(n)] else ToBase16(n / 16) + [HexDigit(n % 16)]
  }

  /** `s.padStart(width, fill)` for a one-character `fill`. */
  function PadStart(s: string, width: nat, fill: char): string {
    if |s| >= width then s else seq(width - |s|, _ => fill) + s
  }

  /** `b.toString(16).padStart(2, '0')`: the high and the low nibble. */
  function ByteToHex(b: byte): (pair: string)
    ensures pair == [HexDigit(b / 16), HexDigit(b % 16)]
  {
    assert b < 16 ==> ToBase16(b) == [HexDigit(b)];
    assert b >= 16 ==> ToBase16(b) == ToBase16(b / 16) + [HexDigit(b % 16)];
    PadStart(ToBase16(b), 2, '0')
  }

  /** `bytes.map(ByteToHex).join('')`: two characters per byte, high nibble first. */
  function HexOf(bytes: seq<byte>): (hex: string)
    ensures |hex| == 2 * |bytes|
    ensures forall i :: 0 <= i < |bytes| ==>
      hex[2 * i] == HexDigit(bytes[i] / 16) && hex[2 * i + 1] == HexDigit(bytes[i] % 16)
  {
    if bytes == [] then "" else
      var rest := HexOf(bytes[1..]);
      assert forall i :: 1 <= i < |bytes| ==> bytes[i] == bytes[1..][i - 1];
      ByteToHex(bytes[0]) + rest
  }

  predicate IsHexDigit(c: char) {
    '0' <= c <= '9' || 'a' <= c <= 'f'
  }

  /** Every character is one of `0-9a-f`. */
  predicate IsLowerHex(s: string) {
    forall i :: 0 <= i < |s| ==> IsHexDigit(s[i])
  }

  /** Hex output uses only lowercase hex digits. */
  lemma {:induction false} HexOfIsLowerHex(bytes: seq<byte>)
    ensures IsLowerHex(HexOf(bytes))
    decreases |bytes|
  {
    if bytes != [] {
      HexOfIsLowerHex(bytes[1..]);
      assert HexOf(bytes) == ByteToHex(bytes[0]) + HexOf(bytes[1..]);
    }
  }

  /** The value of one hex digit. */
  function DigitValue(c: char): (d: nat)
    requires IsHexDigit(c)
    ensures d < 16 && HexDigit(d) == c
  {
    if c <= '9' then c as int - '0' as int else c as int - 'a' as int + 10
  }

  /** Reading two characters at a time back into bytes; `None` for an odd
      length or a character outside `0-9a-f`. */
  function ParseHex(hex: string): Option<seq<byte>>
    decreases |hex|
  {
    if hex == [] then Some([])
    else if |hex| == 1 || !IsHexDigit(hex[0]) || !IsHexDigit(hex[1]) then None
    else match ParseHex(hex[2..])
      case None => None
      case Some(rest) => Some([16 * DigitValue(hex[0]) + DigitValue(hex[1])] + rest)
  }

  lemma DigitValueOfDigit(d: nat)
    requires d < 16
    ensures IsHexDigit(HexDigit(d)) && DigitValue(HexDigit(d)) == d
  {
  }

  /** Parsing the hex rendering recovers the bytes. */
  lemma {:induction false} ParseHexOfHex(bytes: seq<byte>)
    ensures ParseHex(HexOf(bytes)) == Some(bytes)
    decreases |bytes|
  {
    if bytes != [] {
      var hex := HexOf(bytes);
      var b := bytes[0];
      assert hex == ByteToHex(b) + HexOf(bytes[1..]);
      assert hex[2..] == HexOf(bytes[1..]);
      ParseHexOfHex(bytes[1..]);
      assert hex[0] == HexDigit(b / 16) && hex[1] == HexDigit(b % 16);
      DigitValueOfDigit(b / 16);
      DigitValueOfDigit(b % 16);
      assert 16 * (b / 16) + b % 16 == b;
      assert [b] + bytes[1..] == bytes;
    }
  }

  /** Whatever parses is the hex rendering of what it parses to. */
  lemma {:induction false} HexOfParseHex(hex: string, bytes: seq<byte>)
    requires ParseHex(hex) == Some(bytes)
    ensures HexOf(bytes) == hex
    decreases |hex|
  {
    if hex != [] {
      var rest := ParseHex(hex[2..]).value;
      HexOfParseHex(hex[2..], rest);
      var hi, lo := DigitValue(hex[0]), DigitValue(hex[1]);
      var b := 16 * hi + lo;
      DigitsOfByte(hi, lo);
      assert ByteToHex(b) == [hex[0], hex[1]];
      assert bytes == [b] + rest;
      assert bytes[1..] == rest;
      assert HexOf(bytes) == ByteToHex(b) + HexOf(rest);
      assert hex == [hex[0], hex[1]] + hex[2..];
    }
  }

  /** The two hex digits of `16 * hi + lo` are `hi` and `lo`. */
  lemma DigitsOfByte(hi: nat, lo: nat)
    requires hi < 16 && lo < 16
    ensures (16 * hi + lo) / 16 == hi && (16 * hi + lo) % 16 == lo
  {
  }

  /** Distinct digests give distinct room addresses. */
  lemma HexOfInjective(a: seq<byte>, b: seq<byte>)
    requires HexOf(a) == HexOf(b)
    ensures a == b
  {
    ParseHexOfHex(a);
    ParseHexOfHex(b);
  }

  /** `hashPhrase(phrase)`: the room address, the hex of the phrase's SHA-256 digest. */
  function HashPhrase(p: Platform, phrase: string): (roomId: string)
    ensures |roomId| == 2 * DigestLength == 64
  {
    HexOf(p.sha256(p.encode(phrase)))
  }

  /** A room address is 64 lowercase hex characters that parse back to the
      phrase's digest. */
  lemma HashPhraseIsAddress(p: Platform, phrase: string)
    ensures IsLowerHex(HashPhrase(p, phrase))
    ensures ParseHex(HashPhrase(p, phrase)) == Some(p.sha256(p.encode(phrase)))
  {
    var digest := p.sha256(p.encode(phrase));
    HexOfIsLowerHex(digest);
    ParseHexOfHex(digest);
  }

  /** Two phrases share a room address only when their digests collide. */
  lemma SameAddressSameDigest(p: Platform, a: string, b: string)
    requires HashPhrase(p, a) == HashPhrase(p, b)
    ensures p.sha256(p.encode(a)) == p.sha256(p.encode(b))
  {
    HashPhraseIsAddress(p, a);
    HashPhraseIsAddress(p, b);
  }

  // ---------------------------------------------------------------------------
  // `String.prototype.trim`

  /** ECMAScript WhiteSpace and LineTerminator code points (ECMA-262, sections
      12.2 and 12.3): the characters `trim` removes. */
  predicate IsJsWhitespace(c: char) {
    || c == '\t' || c == '\n' || c == '\U{000B}' || c == '\U{000C}' || c == '\r'
    || c == ' ' || c == '\U{00A0}' || c == '\U{1680}'
    || ('\U{2000}' <= c <= '\U{200A}')
    || c == '\U{2028}' || c == '\U{2029}' || c == '\U{202F}' || c == '\U{205F}'
    || c == '\U{3000}' || c == '\U{FEFF}'
  }

  function TrimStart(s: string): (r: string)
    ensures |r| <= |s| && r == s[|s| - |r|..]
    ensures forall i :: 0 <= i < |s| - |r| ==> IsJsWhitespace(s[i])
    ensures r != [] ==> !IsJsWhitespace(r[0])
    decreases |s|
  {
    if s != [] && IsJsWhitespace(s[0]) then TrimStart(s[1..]) else s
  }

  function TrimEnd(s: string): (r: string)
    ensures |r| <= |s| && r == s[..|r|]
    ensures forall i :: |r| <= i < |s| ==> IsJsWhitespace(s[i])
    ensures r != [] ==> !IsJsWhitespace(r[|r| - 1])
    decreases |s|
  {
    if s != [] && IsJsWhitespace(s[|s| - 1]) then TrimEnd(s[..|s| - 1]) else s
  }

  /** `s.trim()`: `s` without its leading and trailing whitespace. */
  function Trim(s: string): (r: string)
    ensures |r| <= |s|
    ensures r != [] ==> !IsJsWhitespace(r[0]) && !IsJsWhitespace(r[|r| - 1])
  {
    TrimEnd(TrimStart(s))
  }

  /** The trimmed string is the slice `s[k..k + |Trim(s)|]` of the input, and
      what lies on either side of that slice is whitespace. */
  lemma TrimIsSlice(s: string) returns (k: nat)
    ensures k + |Trim(s)| <= |s| && Trim(s) == s[k..k + |Trim(s)|]
    ensures forall i :: 0 <= i < k ==> IsJsWhitespace(s[i])
    ensures forall i :: k + |Trim(s)| <= i < |s| ==> IsJsWhitespace(s[i])
  {
    var t := TrimStart(s);
    var r := TrimEnd(t);
    assert Trim(s) == r;
    k := |s| - |t|;
    SliceOfSuffix(s, k, r);
  }

  /** A prefix of the suffix `s[k..]` is the slice starting at `k`. */
  lemma SliceOfSuffix(s: string, k: nat, r: string)
    requires k <= |s| && |r| <= |s| - k && r == s[k..][..|r|]
    ensures r == s[k..k + |r|]
    ensures forall i :: k + |r| <= i < |s| ==> s[i] == s[k..][i - k]
  {
  }

  /** A phrase or message trims to empty exactly when it is all whitespace. */
  lemma TrimEmptyIff(s: string)
    ensures Trim(s) == [] <==> forall i :: 0 <= i < |s| ==> IsJsWhitespace(s[i])
  {
  }

  /** Trimming twice is trimming once. */
  lemma TrimIdempotent(s: string)
    ensures Trim(Trim(s)) == Trim(s)
  {
    var r := Trim(s);
    if r != [] {
      assert TrimStart(r) == r;
      assert TrimEnd(r) == r;
    }
  }

  // ---------------------------------------------------------------------------
  // Rendering incoming messages: `addMessageToUI`

  /** The CSS class `addMessageToUI` gives a message. */
  datatype Kind = SystemNote | Own | Other

  /** The `msg.user === 'System'` / `msg.user === currentUsername` decision. */
  function Classify(user: string, currentUsername: string): (k: Kind)
    ensures k == SystemNote <==> user == ChatServer.SystemUser
    ensures k == Own <==> user != ChatServer.SystemUser && user == currentUsername
    ensures k == Other <==> user != ChatServer.SystemUser && user != currentUsername
  {
    if user == ChatServer.SystemUser then SystemNote
    else if user == currentUsername then Own
    else Other
  }

  /** One transcript entry: its class, the author line (absent for a system
      note) and the text. */
  datatype Entry = Entry(kind: Kind, author: Option<string>, text: string)

  function Render(msg: ChatServer.Msg, currentUsername: string): (e: Entry)
    ensures e.kind == Classify(msg.user, currentUsername)
    ensures e.text == msg.text
    ensures e.author.None? <==> e.kind == SystemNote
    ensures e.author.Some? ==> e.author.value == msg.user
  {
    var kind := Classify(msg.user, currentUsername);
    if kind == SystemNote then Entry(kind, None, msg.text) else Entry(kind, Some(msg.user), msg.text)
  }

  /** A list of messages rendered in order. */
  function RenderAll(messages: seq<ChatServer.Msg>, currentUsername: string): (entries: seq<Entry>)
    ensures |entries| == |messages|
    ensures forall i :: 0 <= i < |messages| ==> entries[i] == Render(messages[i], currentUsername)
  {
    seq(|messages|, i requires 0 <= i < |messages| => Render(messages[i], currentUsername))
  }

  /** A history replayed by the server holds no system notes: every entry
      is someone's own or another's message, with its author shown. */
  lemma ReplayedHistoryHasNoSystemNotes(rooms: map<ChatServer.RoomId, seq<ChatServer.Msg>>, roomId: ChatServer.RoomId,
                                        currentUsername: string)
    requires ChatServer.NoSystemInHistory(rooms)
    requires roomId in rooms
    ensures forall i :: 0 <= i < |rooms[roomId]| ==>
      RenderAll(rooms[roomId], currentUsername)[i].kind != SystemNote &&
      RenderAll(rooms[roomId], currentUsername)[i].author == Some(rooms[roomId][i].user)
  {
  }

  /** The room id shown in the header: `roomId.substring(0, 12) + '...'`. */
  function DisplayRoomId(roomId: string): (shown: string)
    ensures |shown| == (if |roomId| < 12 then |roomId| else 12) + 3
    ensures |roomId| >= 12 ==> shown[..12] == roomId[..12]
    ensures |roomId| < 12 ==> shown[..|roomId|] == roomId
    ensures shown[|shown| - 3..] == "..."
  {
    var prefix := if |roomId| < 12 then roomId else roomId[..12];
    prefix + "..."
  }

  /** For a room address the header shows its first 12 hex digits and "...". */
  lemma DisplayOfRoomAddress(p: Platform, phrase: string)
    ensures var shown := DisplayRoomId(HashPhrase(p, phrase));
            |shown| == 15 && shown == HashPhrase(p, phrase)[..12] + "..." && IsLowerHex(shown[..12])
  {
    HashPhraseIsAddress(p, phrase);
  }

  // ---------------------------------------------------------------------------
  // The page and its handlers

  /** What the client sends over its socket. */
  datatype Outgoing = Connect | Disconnect | EmitJoinRoom(roomId: string) | EmitChatMessage(text: string)

  class Client {
    const platform: Platform
    /** `currentUsername`, set by the `joined` event. */
    var currentUsername: string
    /** The value of the secret-phrase input. */
    var secretInput: string
    /** The value of the message input. */
    var msgInput: string
    /** The text of the room-id header. */
    var roomIdDisplay: string
    /** The rendered children of the message list, in order. */
    var transcript: seq<Entry>
    ghost var outbox: seq<Outgoing>

    constructor (platform: Platform)
      ensures this.platform == platform
      ensures currentUsername == "" && secretInput == "" && msgInput == "" && roomIdDisplay == ""
      ensures transcript == [] && outbox == []
    {
      this.platform := platform;
      currentUsername := "";
      secretInput := "";
      msgInput := "";
      roomIdDisplay := "";
      transcript := [];
      outbox := [];
    }

    /** The join button: nothing unless the trimmed phrase is non-empty; then
        connect, ask to join the phrase's room and show its shortened id. */
    method OnJoinClick()
      modifies this
      ensures Trim(old(secretInput)) == [] ==> unchanged(this)
      ensures Trim(old(secretInput)) != [] ==>
        var roomId := HashPhrase(platform, Trim(old(secretInput)));
        && outbox == old(outbox) + [Connect, EmitJoinRoom(roomId)]
        && roomIdDisplay == DisplayRoomId(roomId)
        && currentUsername == old(currentUsername) && secretInput == old(secretInput)
        && msgInput == old(msgInput) && transcript == old(transcript)
    {
      var phrase := Trim(secretInput);
      if phrase != [] {
        var roomId := HashPhrase(platform, phrase);
        outbox := outbox + [Connect, EmitJoinRoom(roomId)];
        roomIdDisplay := DisplayRoomId(roomId);
      }
    }

    /** The leave button: disconnect, clear the phrase input and the transcript. */
    method OnLeaveClick()
      modifies this
      ensures outbox == old(outbox) + [Disconnect]
      ensures secretInput == "" && transcript == []
      ensures currentUsername == old(currentUsername) && msgInput == old(msgInput)
      ensures roomIdDisplay == old(roomIdDisplay)
    {
      outbox := outbox + [Disconnect];
      secretInput := "";
      transcript := [];
    }

    /** The send form: emit the trimmed text and clear the input, only when
        the trimmed text is non-empty. */
    method OnSubmit()
      modifies this
      ensures Trim(old(msgInput)) == [] ==> unchanged(this)
      ensures Trim(old(msgInput)) != [] ==>
        && outbox == old(outbox) + [EmitChatMessage(Trim(old(msgInput)))]
        && msgInput == ""
        && currentUsername == old(currentUsername) && secretInput == old(secretInput)
        && roomIdDisplay == old(roomIdDisplay) && transcript == old(transcript)
    {
      var msg := Trim(msgInput);
      if msg != [] {
        outbox := outbox + [EmitChatMessage(msg)];
        msgInput := "";
      }
    }

    /** `addMessageToUI(msg)`: append one rendered entry. */
    method AddMessageToUI(msg: ChatServer.Msg)
      modifies this
      ensures transcript == old(transcript) + [Render(msg, currentUsername)]
      ensures currentUsername == old(currentUsername) && secretInput == old(secretInput)
      ensures msgInput == old(msgInput) && roomIdDisplay == old(roomIdDisplay) && outbox == old(outbox)
    {
      var kind: Kind;
      if msg.user == ChatServer.SystemUser {
        kind := SystemNote;
        transcript := transcript + [Entry(kind, None, msg.text)];
      } else {
        if msg.user == currentUsername {
          kind := Own;
        } else {
          kind := Other;
        }
        transcript := transcript + [Entry(kind, Some(msg.user), msg.text)];
      }
    }

    /** The `history` event: the transcript becomes the received messages,
        rendered in array order. */
    method OnHistory(messages: seq<ChatServer.Msg>)
      modifies this
      ensures transcript == RenderAll(messages, currentUsername)
      ensures currentUsername == old(currentUsername) && secretInput == old(secretInput)
      ensures msgInput == old(msgInput) && roomIdDisplay == old(roomIdDisplay) && outbox == old(outbox)
    {
      transcript := [];
      for i := 0 to |messages|
        invariant |transcript| == i
        invariant forall k :: 0 <= k < i ==> transcript[k] == Render(messages[k], currentUsername)
        invariant currentUsername == old(currentUsername) && secretInput == old(secretInput)
        invariant msgInput == old(msgInput) && roomIdDisplay == old(roomIdDisplay) && outbox == old(outbox)
      {
        AddMessageToUI(messages[i]);
      }
    }

    /** The `joined` event. */
    method OnJoined(username: string)
      modifies this
      ensures currentUsername == username
      ensures secretInput == old(secretInput) && msgInput == old(msgInput)
      ensures roomIdDisplay == old(roomIdDisplay) && transcript == old(transcript) && outbox == old(outbox)
    {
      currentUsername := username;
    }

    /** The `message` event. */
    method OnMessage(msg: ChatServer.Msg)
      modifies this
      ensures transcript == old(transcript) + [Render(msg, currentUsername)]
      ensures currentUsername == old(currentUsername) && secretInput == old(secretInput)
      ensures msgInput == old(msgInput) && roomIdDisplay == old(roomIdDisplay) && outbox == old(outbox)
    {
      AddMessageToUI(msg);
    }
  }
}
