/** Matching a sent text against the paste the harness reports (harness/hooks.go). Texts are
    sequences of code points. */
module PasteMatch {
  import opened Records

  const PAIR := "<\\"

  /** The sent code point at `k` may be reported as the pair: an opener, or any non-ASCII lookalike. */
  predicate Opener(c: char) {
    c == '<' || c as int >= 128
  }

  predicate PairAt(t: string, k: nat) {
    k + 1 < |t| && t[k] == '<' && t[k + 1] == '\\'
  }

  /** `sent` as reported when the marked openers are replaced by the pair. */
  function Escape(sent: string, mask: seq<bool>): string
    requires |mask| == |sent|
  {
    if sent == [] then [] else (if mask[0] then PAIR else [sent[0]]) + Escape(sent[1..], mask[1..])
  }

  /** The mask marks openers only. */
  ghost predicate Marks(sent: string, mask: seq<bool>) {
    |mask| == |sent| && forall k | 0 <= k < |sent| :: mask[k] ==> Opener(sent[k])
  }

  /** The mask marks no opener that the sent text itself follows with the pair's second half. */
  ghost predicate SparesPairs(sent: string, mask: seq<bool>)
    requires |mask| == |sent|
  {
    forall k | 0 <= k < |sent| :: mask[k] ==> !PairAt(sent, k)
  }

  /** The rest of `body` after `sent`, if `body` starts with a report of it. */
  function Consume(body: string, sent: string): Option<string>
    decreases |sent|
  {
    if sent == [] then Some(body)
    else if PairAt(body, 0) && !PairAt(sent, 0) && Opener(sent[0]) then Consume(body[2..], sent[1..])
    else if body == [] || body[0] != sent[0] then None
    else Consume(body[1..], sent[1..])
  }

  /** The scan over both texts. */
  method ConsumePastedBody(body: string, sent: string) returns (rest: string, ok: bool)
    ensures Consume(body, sent) == if ok then Some(rest) else None
  {
    var b, s := body, sent;
    while s != []
      invariant Consume(b, s) == Consume(body, sent)
      decreases |s|
    {
      if PairAt(b, 0) && !PairAt(s, 0) && Opener(s[0]) {
        b, s := b[2..], s[1..];
        continue;
      }
      if b == [] || b[0] != s[0] {
        return "", false;
      }
      b, s := b[1..], s[1..];
    }
    return b, true;
  }

  /** A match reads the body as an escaping of the sent text and the rest. */
  lemma {:induction false} ConsumeReads(body: string, sent: string) returns (mask: seq<bool>)
    requires Consume(body, sent).Some?
    ensures Marks(sent, mask) && SparesPairs(sent, mask)
    ensures body == Escape(sent, mask) + Consume(body, sent).value
    decreases |sent|
  {
    if sent == [] {
      mask := [];
    } else if PairAt(body, 0) && !PairAt(sent, 0) && Opener(sent[0]) {
      var more := ConsumeReads(body[2..], sent[1..]);
      mask := [true] + more;
      assert mask[1..] == more && body == PAIR + body[2..];
      Spared(sent, mask);
    } else {
      var more := ConsumeReads(body[1..], sent[1..]);
      mask := [false] + more;
      assert mask[1..] == more && body == [sent[0]] + body[1..];
      Spared(sent, mask);
    }
  }

  lemma Spared(sent: string, mask: seq<bool>)
    requires sent != [] && |mask| == |sent| && SparesPairs(sent[1..], mask[1..])
    requires mask[0] ==> !PairAt(sent, 0)
    ensures SparesPairs(sent, mask)
  {
    forall k | 0 <= k < |sent| && mask[k] ensures !PairAt(sent, k) {
      if k > 0 {
        assert mask[1..][k - 1] && !PairAt(sent[1..], k - 1);
      }
    }
  }

  /** Every escaping that spares the text's own pairs is matched, and leaves the rest, unless the text
      ends in an opener reported as sent and the rest begins with the pair's second half. */
  lemma {:induction false} ConsumeUndoes(sent: string, mask: seq<bool>, rest: string)
    requires Marks(sent, mask) && SparesPairs(sent, mask)
    requires sent != [] && sent[|sent| - 1] == '<' && !mask[|mask| - 1] ==> rest == [] || rest[0] != '\\'
    ensures Consume(Escape(sent, mask) + rest, sent) == Some(rest)
    decreases |sent|
  {
    var body := Escape(sent, mask) + rest;
    if sent == [] {
      assert body == rest;
    } else {
      var tail := Escape(sent[1..], mask[1..]) + rest;
      assert forall k | 0 <= k < |sent| - 1 :: PairAt(sent[1..], k) == PairAt(sent, k + 1);
      ConsumeUndoes(sent[1..], mask[1..], rest);
      if mask[0] {
        assert body == PAIR + tail && PairAt(body, 0) && !PairAt(sent, 0);
        assert body[2..] == tail;
      } else {
        assert body == [sent[0]] + tail;
        assert body[1..] == tail;
        if PairAt(body, 0) && sent[0] == '<' {
          NextIsSame(sent[1..], mask[1..], rest);
          assert PairAt(sent, 0);
        }
        assert Consume(body, sent) == Consume(tail, sent[1..]);
      }
    }
  }

  /** A report begins with the pair's second half only where the text does. */
  lemma NextIsSame(sent: string, mask: seq<bool>, rest: string)
    requires |mask| == |sent| && var body := Escape(sent, mask) + rest; body != [] && body[0] == '\\'
    ensures if sent == [] then rest != [] && rest[0] == '\\' else sent[0] == '\\'
  {
    var body := Escape(sent, mask) + rest;
    if sent == [] {
      assert body == rest;
    }
  }

  /** The whole body is consumed exactly when it is an escaping of the sent text that spares the
      text's own pairs. */
  lemma ConsumesIff(body: string, sent: string)
    ensures Consume(body, sent) == Some("") <==>
            exists mask :: Marks(sent, mask) && SparesPairs(sent, mask) && Escape(sent, mask) == body
  {
    if Consume(body, sent) == Some("") {
      var mask := ConsumeReads(body, sent);
      assert Escape(sent, mask) + "" == Escape(sent, mask);
    }
    forall mask | Marks(sent, mask) && SparesPairs(sent, mask) && Escape(sent, mask) == body
      ensures Consume(body, sent) == Some("")
    {
      ConsumeUndoes(sent, mask, "");
      assert body + "" == body;
    }
  }

  ghost predicate HasPair(sent: string) {
    exists k | 0 <= k < |sent| :: PairAt(sent, k)
  }

  /** Every way the harness may escape a text is undone exactly when the text does not hold the pair. */
  lemma UndoesEveryEscapeIff(sent: string)
    ensures (forall mask | Marks(sent, mask) :: Consume(Escape(sent, mask), sent) == Some("")) <==> !HasPair(sent)
  {
    if HasPair(sent) {
      var k :| 0 <= k < |sent| && PairAt(sent, k);
      EscapedPairIsMissed(sent, k);
    } else {
      forall mask | Marks(sent, mask) ensures Consume(Escape(sent, mask), sent) == Some("") {
        ConsumesIff(Escape(sent, mask), sent);
      }
    }
  }

  function Only(n: nat, k: nat): (mask: seq<bool>)
    ensures |mask| == n && forall j | 0 <= j < n :: mask[j] <==> j == k
  {
    seq(n, j => j == k)
  }

  /** A text's own pair whose opener is escaped is not recognized. */
  lemma EscapedPairIsMissed(sent: string, k: nat)
    requires PairAt(sent, k)
    ensures Marks(sent, Only(|sent|, k)) && Consume(Escape(sent, Only(|sent|, k)), sent) != Some("")
  {
    assert Marks(sent, Only(|sent|, k));
    var z := sent[k + 2..];
    var x, y := PAIR + (['\\'] + z), PAIR + z;
    hide *;
    EscapeOne(sent, k);
    AroundPair(sent, k);
    LiteralPrefix(sent[..k], x, y);
    PairTwice(z);
  }

  lemma AroundPair(sent: string, k: nat)
    requires PairAt(sent, k)
    ensures var z := sent[k + 2..];
            && sent == sent[..k] + (PAIR + z)
            && sent[..k] + PAIR + sent[k + 1..] == sent[..k] + (PAIR + (['\\'] + z))
  {
    assert sent[k + 1..] == ['\\'] + sent[k + 2..];
  }

  lemma PairTwice(z: string)
    ensures Consume(PAIR + (['\\'] + z), PAIR + z) != Some("")
  {
    var x, y := PAIR + (['\\'] + z), PAIR + z;
    assert x[1..][1..] == ['\\'] + z && y[1..][1..] == z;
    ExtraHalf(z);
  }

  lemma {:induction false} EscapeNone(sent: string, mask: seq<bool>)
    requires |mask| == |sent| && forall j | 0 <= j < |sent| :: !mask[j]
    ensures Escape(sent, mask) == sent
  {
    if sent != [] {
      EscapeNone(sent[1..], mask[1..]);
    }
  }

  lemma {:induction false} EscapeOne(sent: string, k: nat)
    requires k < |sent|
    ensures Escape(sent, Only(|sent|, k)) == sent[..k] + PAIR + sent[k + 1..]
  {
    var mask := Only(|sent|, k);
    if k == 0 {
      EscapeNone(sent[1..], mask[1..]);
    } else {
      EscapeOne(sent[1..], k - 1);
      assert mask[1..] == Only(|sent| - 1, k - 1);
      assert sent[1..][..k - 1] == sent[1..k] && sent[1..][k..] == sent[k + 1..];
    }
  }

  lemma {:induction false} LiteralPrefix(a: string, x: string, y: string)
    requires x != [] && y != [] && x[0] == y[0] != '\\'
    ensures Consume(a + x, a + y) == Consume(x, y)
  {
    if a == [] {
      assert a + x == x && a + y == y;
    } else {
      assert (a + x)[1..] == a[1..] + x && (a + y)[1..] == a[1..] + y;
      LiteralPrefix(a[1..], x, y);
    }
  }

  lemma {:induction false} ExtraHalf(z: string)
    ensures Consume(['\\'] + z, z) != Some("")
  {
    var body := ['\\'] + z;
    if z != [] {
      assert body[1..] == z;
      if z[0] == '\\' {
        assert z == ['\\'] + z[1..];
        ExtraHalf(z[1..]);
      }
    }
  }

  /** Where `t` first holds `sep`. */
  function Index(t: string, sep: string): (i: Option<nat>)
    ensures i.Some? ==> i.value + |sep| <= |t| && t[i.value..i.value + |sep|] == sep
  {
    if sep <= t then Some(0)
    else if t == [] then None
    else match Index(t[1..], sep)
      case None => None
      case Some(i) => Some(i + 1)
  }

  function TagStart(): string {
    "<pasted_content id=\""
  }

  function TagEnd(): string {
    "\">\n"
  }

  function TagClose(id: string): string {
    "\n</pasted_content id=\"" + id + "\">"
  }

  function TrimPrefix(t: string, p: string): string {
    if p <= t then t[|p|..] else t
  }

  predicate TagID(id: string) {
    id != "" && forall c <- id :: c != '"' && c != '\r' && c != '\n' && c != '<' && c != '>'
  }

  /** The prompt without the newlines the harness puts before the element. */
  function Unframe(witnessed: string): string {
    if "\n\n" <= witnessed then witnessed[2..] else TrimPrefix(witnessed, "\n")
  }

  /** The element's identifier and what follows its opening tag. */
  function ReadTag(framed: string): Option<(string, string)> {
    if !(TagStart() <= framed) then None
    else
      var tagged := framed[|TagStart()|..];
      match Index(tagged, TagEnd())
      case None => None
      case Some(i) => if TagID(tagged[..i]) then Some((tagged[..i], tagged[i + |TagEnd()|..])) else None
  }

  /** What the element holds after the paste, and what follows its closing tag and one newline. */
  function BesidePaste(sent: string, id: string, wrapped: string): Option<string> {
    match Consume(wrapped, sent)
    case None => None
    case Some(rest) =>
      match Index(rest, TagClose(id))
      case None => None
      case Some(j) => Some(rest[..j] + TrimPrefix(rest[j + |TagClose(id)|..], "\n"))
  }

  /** What a witnessed prompt holds outside the paste, wrapped in its element or not. */
  function MatchClaudePaste(sent: string, witnessed: string): Option<string> {
    if Consume(witnessed, sent).Some? then Consume(witnessed, sent)
    else match ReadTag(Unframe(witnessed))
      case None => None
      case Some(tag) => BesidePaste(sent, tag.0, tag.1)
  }

  lemma {:induction false} IndexOfTagEnd(id: string, after: string)
    requires '"' !in id
    ensures Index(id + (TagEnd() + after), TagEnd()) == Some(|id|)
  {
    var t := id + (TagEnd() + after);
    assert TagEnd()[0] == '"';
    hide TagEnd;
    if id != [] {
      assert t[0] == id[0] != TagEnd()[0];
      assert t[1..] == id[1..] + (TagEnd() + after);
      IndexOfTagEnd(id[1..], after);
    } else {
      assert t[..|TagEnd()|] == TagEnd();
    }
  }

  /** What the paste's element looks like around `body`, which starts with the escaped paste. */
  function Framed(lead: string, id: string, body: string): string {
    lead + (TagStart() + (id + (TagEnd() + body)))
  }

  /** The element, its identifier and the newlines around it are undone: what is left is the text
      typed beside the paste, when the paste is not mistaken for a bare one and the closing tag's
      first occurrence is the wrapper's own. */
  lemma UnwrapsPaste(lead: string, id: string, sent: string, mask: seq<bool>, inside: string, ended: string)
    requires id != "" && forall c <- id :: c !in {'"', '\r', '\n', '<', '>'}
    requires Marks(sent, mask) && SparesPairs(sent, mask)
    requires lead == "" || lead == "\n" || lead == "\n\n"
    requires sent != [] && sent[|sent| - 1] != '<'
    requires Index(inside + (TagClose(id) + ended), TagClose(id)) == Some(|inside|)
    ensures var wrapped := Escape(sent, mask) + (inside + (TagClose(id) + ended));
            var witnessed := lead + ("<pasted_content id=\"" + (id + ("\">\n" + wrapped)));
            MatchClaudePaste(sent, witnessed) ==
              if Consume(witnessed, sent).Some? then Consume(witnessed, sent) else Some(inside + TrimPrefix(ended, "\n"))
  {
    assert |mask| == |sent| && TagID(id);
    assert TagStart() == "<pasted_content id=\"" && TagEnd() == "\">\n";
    FramedMeans(lead, id, Escape(sent, mask) + (inside + (TagClose(id) + ended)));
    hide *;
    var rest := inside + (TagClose(id) + ended);
    TagIsRead(lead, id, Escape(sent, mask) + rest);
    ConsumeUndoes(sent, mask, rest);
    RestIsRead(sent, id, Escape(sent, mask) + rest, inside, ended);
    Chained(lead, sent, id, Escape(sent, mask) + rest);
  }

  lemma FramedMeans(lead: string, id: string, body: string)
    ensures Framed(lead, id, body) == lead + ("<pasted_content id=\"" + (id + ("\">\n" + body)))
  {
  }

  /** Conversely, a prompt is only ever taken for a wrapped paste when it is one: at most two newlines,
      the opening tag with an identifier free of quotes, angles and line breaks, an escaping of the
      sent text, and the closing tag of that identifier; what is left is the rest, less one newline. */
  lemma MatchReads(sent: string, witnessed: string)
      returns (lead: string, id: string, mask: seq<bool>, inside: string, ended: string)
    requires Consume(witnessed, sent).None? && MatchClaudePaste(sent, witnessed).Some?
    ensures lead == "" || lead == "\n" || lead == "\n\n"
    ensures id != "" && forall c <- id :: c !in {'"', '\r', '\n', '<', '>'}
    ensures Marks(sent, mask) && SparesPairs(sent, mask)
    ensures witnessed == lead + "<pasted_content id=\"" + id + "\">\n" + Escape(sent, mask) + inside
                         + ("\n</pasted_content id=\"" + id + "\">") + ended
    ensures MatchClaudePaste(sent, witnessed) == Some(inside + if "\n" <= ended then ended[1..] else ended)
  {
    lead := UnframeReads(witnessed);
    var wrapped;
    id, wrapped := TagReads(Unframe(witnessed));
    mask, inside, ended := BesideReads(sent, id, wrapped);
    var reported, close := Escape(sent, mask), "\n</pasted_content id=\"" + id + "\">";
    var start, end := "<pasted_content id=\"", "\">\n";
    assert witnessed == lead + (start + (id + end + (reported + (inside + close + ended))));
    hide *;
    Joined(lead, start, id, end, reported, inside, close, ended);
  }

  lemma Joined(a: string, b: string, c: string, d: string, e: string, f: string, g: string, h: string)
    ensures a + (b + (c + d + (e + (f + g + h)))) == a + b + c + d + e + f + g + h
  {
    var tail := f + g + h;
    assert a + (b + (c + d + (e + tail))) == a + b + c + d + e + tail;
    var head := a + b + c + d + e;
    assert head + (f + g + h) == head + f + g + h;
  }

  lemma UnframeReads(witnessed: string) returns (lead: string)
    ensures lead == "" || lead == "\n" || lead == "\n\n"
    ensures witnessed == lead + Unframe(witnessed)
  {
    lead := if "\n\n" <= witnessed then "\n\n" else if "\n" <= witnessed then "\n" else "";
  }

  lemma TagReads(framed: string) returns (id: string, wrapped: string)
    requires ReadTag(framed).Some?
    ensures ReadTag(framed) == Some((id, wrapped))
    ensures id != "" && forall c <- id :: c !in {'"', '\r', '\n', '<', '>'}
    ensures framed == "<pasted_content id=\"" + (id + "\">\n" + wrapped)
  {
    var tagged := framed[|TagStart()|..];
    var i := Index(tagged, TagEnd()).value;
    id, wrapped := tagged[..i], tagged[i + |TagEnd()|..];
    assert tagged == id + TagEnd() + wrapped;
    assert framed == TagStart() + tagged;
    hide Index;
  }

  lemma BesideReads(sent: string, id: string, wrapped: string) returns (mask: seq<bool>, inside: string, ended: string)
    requires BesidePaste(sent, id, wrapped).Some?
    ensures Marks(sent, mask) && SparesPairs(sent, mask)
    ensures wrapped == Escape(sent, mask) + (inside + ("\n</pasted_content id=\"" + id + "\">") + ended)
    ensures BesidePaste(sent, id, wrapped) == Some(inside + if "\n" <= ended then ended[1..] else ended)
  {
    mask := ConsumeReads(wrapped, sent);
    var rest := Consume(wrapped, sent).value;
    inside, ended := CutAt(rest, TagClose(id));
    assert TagClose(id) == "\n</pasted_content id=\"" + id + "\">";
    hide Consume, Index, Escape, Marks, SparesPairs, TagClose;
  }

  lemma CutAt(t: string, sep: string) returns (before: string, behind: string)
    requires Index(t, sep).Some?
    ensures t == before + sep + behind
    ensures var j := Index(t, sep).value; before == t[..j] && behind == t[j + |sep|..]
  {
    var j := Index(t, sep).value;
    before, behind := t[..j], t[j + |sep|..];
    hide Index;
    assert t[j..j + |sep|] == sep;
  }

  /** Which sent characters the pair may stand for: the angle itself and everything outside ASCII. */
  lemma PairStandsFor(c: char)
    ensures Consume("<\\", [c]) == Some("") <==> c == '<' || c as int > 127
  {
    assert "<\\"[2..] == "" && [c][1..] == "";
  }

  lemma Chained(lead: string, sent: string, id: string, wrapped: string)
    requires ReadTag(Unframe(Framed(lead, id, wrapped))) == Some((id, wrapped))
    ensures var witnessed := Framed(lead, id, wrapped);
            MatchClaudePaste(sent, witnessed) ==
              if Consume(witnessed, sent).Some? then Consume(witnessed, sent) else BesidePaste(sent, id, wrapped)
  {
    hide Consume, BesidePaste, ReadTag, Unframe, Framed;
  }

  lemma TagIsRead(lead: string, id: string, wrapped: string)
    requires TagID(id) && (lead == "" || lead == "\n" || lead == "\n\n")
    ensures ReadTag(Unframe(Framed(lead, id, wrapped))) == Some((id, wrapped))
  {
    assert '"' !in id;
    hide Index, Unframe, TagID, TagStart, TagEnd;
    var tagged := id + (TagEnd() + wrapped);
    IndexOfTagEnd(id, wrapped);
    Unframed(lead, tagged);
    Parted(id, TagEnd(), wrapped);
    TagSplit(Unframe(Framed(lead, id, wrapped)), tagged, id, wrapped);
  }

  lemma TagSplit(framed: string, tagged: string, id: string, wrapped: string)
    requires TagID(id) && TagStart() <= framed && framed[|TagStart()|..] == tagged
    requires Index(tagged, TagEnd()) == Some(|id|) && tagged[..|id|] == id && tagged[|id| + |TagEnd()|..] == wrapped
    ensures ReadTag(framed) == Some((id, wrapped))
  {
    hide Index, TagID, TagStart, TagEnd;
    assert framed[|TagStart()|..] == tagged;
  }

  lemma RestIsRead(sent: string, id: string, wrapped: string, inside: string, ended: string)
    requires Consume(wrapped, sent) == Some(inside + (TagClose(id) + ended))
    requires Index(inside + (TagClose(id) + ended), TagClose(id)) == Some(|inside|)
    ensures BesidePaste(sent, id, wrapped) == Some(inside + TrimPrefix(ended, "\n"))
  {
    hide Consume, Index, TagClose;
    Parted(inside, TagClose(id), ended);
  }

  lemma Parted(a: string, b: string, c: string)
    ensures var t := a + (b + c); t[..|a|] == a && |a| + |b| <= |t| && t[|a| + |b|..] == c
  {
  }

  lemma Unframed(lead: string, tagged: string)
    requires lead == "" || lead == "\n" || lead == "\n\n"
    ensures var framed := Unframe(lead + (TagStart() + tagged));
            TagStart() <= framed && framed[|TagStart()|..] == tagged
  {
    assert TagStart()[0] == '<';
    hide TagStart;
    var witnessed := lead + (TagStart() + tagged);
    assert witnessed[|lead|] == '<';
    assert witnessed[|lead|..] == TagStart() + tagged;
  }
}
