/** Removing tag-shaped text from message bodies (cmd/gang/input.go).

    The alphabet is abstract: a rune is one of the kinds the program distinguishes, and
    canonicalization drops the invisible ones and keeps the kind of every other. */
module Defang {
  import opened Records

  datatype Rune =
    | Opening(glyph: nat) | Closing(glyph: nat) | Space(glyph: nat) | Slash(glyph: nat) | Separator(glyph: nat)
    | G(glyph: nat) | A(glyph: nat) | N(glyph: nat) | Lookalike(glyph: nat) | Invisible(glyph: nat) | Other(glyph: nat)

  type Text = seq<Rune>

  predicate Bracket(r: Rune) {
    r.Opening? || r.Closing?
  }

  function Canon(t: Text): Text {
    if t == [] then [] else (if t[0].Invisible? then [] else [t[0]]) + Canon(t[1..])
  }

  function Trim(t: Text): Text {
    if t != [] && t[0].Space? then Trim(t[1..]) else t
  }

  /** The keyword letters in order; a lookalike stands for any of them. */
  predicate Letters(t: Text) {
    && |t| >= 4
    && (t[0].G? || t[0].Lookalike?) && (t[1].A? || t[1].Lookalike?)
    && (t[2].N? || t[2].Lookalike?) && (t[3].G? || t[3].Lookalike?)
  }

  predicate Named(t: Text) {
    Letters(t) && Trim(t[4..]) != [] && Trim(t[4..])[0].Separator?
  }

  /** What follows the spaces and the one slash a keyword may start with. */
  function Body(t: Text): Text {
    var u := Trim(t);
    if u != [] && u[0].Slash? then Trim(u[1..]) else u
  }

  /** Canonical text that makes the bracket before it a tag opener. */
  predicate Keyword(t: Text) {
    Named(Body(t))
  }

  /** Canonical text that is empty or a lone slash, apart from spaces. */
  predicate Blank(t: Text) {
    Body(t) == []
  }

  function Slashes(t: Text): nat {
    if Trim(t) != [] && Trim(t)[0].Slash? then 1 else 0
  }

  lemma {:induction false} CanonJoins(a: Text, b: Text)
    ensures Canon(a + b) == Canon(a) + Canon(b)
  {
    if a == [] {
      assert a + b == b;
    } else {
      assert (a + b)[1..] == a[1..] + b;
      CanonJoins(a[1..], b);
    }
  }

  lemma {:induction false} TrimJoins(a: Text, b: Text)
    ensures Trim(a + b) == if Trim(a) == [] then Trim(b) else Trim(a) + b
    ensures Trim(a) != [] ==> !Trim(a)[0].Space?
  {
    if a == [] {
      assert a + b == b;
    } else if a[0].Space? {
      assert (a + b)[1..] == a[1..] + b;
      TrimJoins(a[1..], b);
    }
  }

  lemma BodyJoins(a: Text, b: Text)
    ensures !Blank(a) ==> Body(a + b) == Body(a) + b && Body(a) != [] && !Body(a)[0].Space?
    ensures Blank(a) && Slashes(a) + Slashes(b) <= 1 ==> Body(a + b) == Body(b) && Slashes(a + b) == Slashes(a) + Slashes(b)
  {
    TrimJoins(a, b);
    var u := Trim(a);
    if u != [] {
      assert (u + b)[1..] == u[1..] + b;
      if u[0].Slash? {
        TrimJoins(u[1..], b);
      }
    }
  }

  /** Deleting the bracket between a blank prefix and a keyword exposes a keyword, as long as the
      two hold at most one slash. */
  lemma BlankBeforeKeyword(a: Text, x: Text)
    requires Blank(a) && Keyword(x) && Slashes(a) + Slashes(x) <= 1
    ensures Keyword(a + x) && Slashes(a + x) == Slashes(a) + Slashes(x)
  {
    BodyJoins(a, x);
  }

  /** With a slash on both sides it exposes none, and the text is no longer blank. */
  lemma SlashBeforeSlash(a: Text, x: Text)
    requires Blank(a) && Keyword(x) && Slashes(a) + Slashes(x) > 1
    ensures !Keyword(a + x) && !Blank(a + x)
  {
    TrimJoins(a, x);
    var u := Trim(a);
    assert (u + x)[1..] == u[1..] + x;
    TrimJoins(u[1..], x);
  }

  /** A keyword joined to text that is neither blank nor a keyword makes neither. */
  lemma FirmBeforeKeyword(j: Text, x: Text)
    requires !Blank(j) && !Keyword(j) && Keyword(x)
    ensures !Blank(j + x) && !Keyword(j + x)
  {
    BodyJoins(j, x);
    var b := Body(j);
    var whole := b + x;
    if Letters(whole) {
      if |b| >= 4 {
        assert whole[4..] == b[4..] + x;
        TrimJoins(b[4..], x);
      } else {
        // The keyword's own letters would have to continue those of `j`.
        var k := 4 - |b|;
        assert whole[4..] == x[k..];
        assert !x[0].Space? && !x[0].Slash?;
        assert Body(x) == x && Letters(x);
        assert x[k..][0] == x[k];
        assert Trim(x[k..]) == x[k..];
      }
    }
  }

  /** The first bracket at or after `i`, or the end. */
  function NextBracket(t: Text, i: nat): (n: nat)
    requires i <= |t|
    ensures i <= n <= |t| && (n < |t| ==> Bracket(t[n])) && forall k | i <= k < n :: !Bracket(t[k])
    decreases |t| - i
  {
    if i == |t| || Bracket(t[i]) then i else NextBracket(t, i + 1)
  }

  /** The bracket at `p` opens a tag. */
  predicate TagAt(t: Text, p: nat)
    requires p < |t|
  {
    t[p].Opening? && Keyword(Canon(t[p + 1..NextBracket(t, p + 1)]))
  }

  ghost predicate TagFree(t: Text) {
    forall p | 0 <= p < |t| :: !TagAt(t, p)
  }

  ghost predicate Spaces(t: Text, i: nat, j: nat) {
    i <= j <= |t| && forall k | i <= k < j :: t[k].Space?
  }

  ghost predicate Stands(r: Rune, letter: Rune) {
    match letter
    case G(_) => r.G? || r.Lookalike?
    case A(_) => r.A? || r.Lookalike?
    case _ => r.N? || r.Lookalike?
  }

  /** Where a tag's parts stand in canonical text: spaces up to `i`, at most a slash and more spaces up
      to `j`, the four letters, spaces up to `k`, and a separator. */
  ghost predicate Parts(t: Text, i: nat, j: nat, k: nat) {
    && Spaces(t, 0, i) && (j == i || (i < j <= |t| && t[i].Slash? && Spaces(t, i + 1, j)))
    && j + 4 <= k < |t| && Spaces(t, j + 4, k) && t[k].Separator?
    && Stands(t[j], G(0)) && Stands(t[j + 1], A(0)) && Stands(t[j + 2], N(0)) && Stands(t[j + 3], G(0))
  }

  ghost predicate HasParts(t: Text) {
    exists i: nat, j: nat, k: nat :: Parts(t, i, j, k)
  }

  lemma SpacesShift(t: Text, i: nat, n: nat)
    requires i <= |t|
    ensures Spaces(t[i..], 0, n) <==> Spaces(t, i, i + n)
  {
    if Spaces(t[i..], 0, n) {
      forall k | i <= k < i + n ensures t[k].Space? {
        assert t[k] == t[i..][k - i];
      }
    }
  }

  /** Trimming a stretch drops the spaces up to `j`. */
  lemma TrimFrom(t: Text, i: nat, j: nat)
    requires i <= |t| && Spaces(t, i, j) && (j < |t| ==> !t[j].Space?)
    ensures Trim(t[i..]) == t[j..]
  {
    SpacesShift(t, i, j - i);
    TrimAt(t[i..], j - i);
    assert t[i..][j - i..] == t[j..];
  }

  lemma TrimsTo(t: Text, i: nat) returns (j: nat)
    requires i <= |t|
    ensures Spaces(t, i, j) && (j < |t| ==> !t[j].Space?) && Trim(t[i..]) == t[j..]
  {
    var n := TrimMeans(t[i..]);
    SpacesShift(t, i, n);
    j := i + n;
    assert t[i..][n..] == t[j..];
  }

  lemma {:induction false} TrimMeans(t: Text) returns (n: nat)
    ensures Spaces(t, 0, n) && Trim(t) == t[n..] && (n < |t| ==> !t[n].Space?)
  {
    if t != [] && t[0].Space? {
      n := TrimMeans(t[1..]);
      n := n + 1;
    } else {
      n := 0;
    }
  }

  lemma {:induction false} TrimAt(t: Text, n: nat)
    requires Spaces(t, 0, n) && (n < |t| ==> !t[n].Space?)
    ensures Trim(t) == t[n..]
  {
    if n > 0 {
      assert forall k | 0 <= k < n - 1 :: t[1..][k] == t[k + 1];
      TrimAt(t[1..], n - 1);
    }
  }

  /** What opens a tag, part by part: the bracket is an opening one and the canonical text up to the
      next bracket has the parts of a tag. */
  lemma TagMeans(t: Text, p: nat, q: nat)
    requires p < q <= |t| && (forall k | p < k < q :: !Bracket(t[k])) && (q < |t| ==> Bracket(t[q]))
    ensures TagAt(t, p) <==> t[p].Opening? && HasParts(Canon(t[p + 1..q]))
  {
    assert NextBracket(t, p + 1) == q;
    var c := Canon(t[p + 1..q]);
    if Keyword(c) {
      KeywordHasParts(c);
    }
    if HasParts(c) {
      PartsMakeKeyword(c);
    }
    hide Canon, Keyword, HasParts;
  }

  lemma KeywordHasParts(c: Text)
    requires Keyword(c)
    ensures HasParts(c)
  {
    var i, j := BodyStarts(c);
    assert c[j..][4..] == c[j + 4..];
    var k := TrimsTo(c, j + 4);
    hide Trim, Spaces, Body;
    assert Parts(c, i, j, k);
  }

  lemma BodyStarts(c: Text) returns (i: nat, j: nat)
    ensures Spaces(c, 0, i) && i <= j <= |c| && (j == i || (c[i].Slash? && Spaces(c, i + 1, j)))
    ensures Body(c) == c[j..]
  {
    assert c[0..] == c;
    i := TrimsTo(c, 0);
    j := i;
    if i < |c| && c[i].Slash? {
      j := TrimsTo(c, i + 1);
      assert c[i..][1..] == c[i + 1..];
    }
    hide Trim, Spaces;
  }

  lemma PartsMakeKeyword(c: Text)
    requires HasParts(c)
    ensures Keyword(c)
  {
    var i: nat, j: nat, k: nat :| Parts(c, i, j, k);
    assert c[0..] == c;
    TrimFrom(c, 0, i);
    if j > i {
      TrimFrom(c, i + 1, j);
      assert c[i..][1..] == c[i + 1..];
    }
    assert Body(c) == c[j..];
    TrimFrom(c, j + 4, k);
    assert c[j..][4..] == c[j + 4..];
    hide Trim, Spaces;
  }

  /** Canonical text is the text without the invisible runes. */
  lemma {:induction false} CanonMeans(t: Text, r: Rune)
    ensures multiset(Canon(t))[r] == if r.Invisible? then 0 else multiset(t)[r]
  {
    if t != [] {
      assert t == [t[0]] + t[1..];
      CanonMeans(t[1..], r);
    }
  }

  /** A bracket and the text up to the next one; the text before the first bracket has none. */
  datatype Block = Block(bracket: Text, text: Text)

  function Flatten(blocks: seq<Block>): Text {
    if blocks == [] then []
    else Flatten(blocks[..|blocks| - 1]) + blocks[|blocks| - 1].bracket + blocks[|blocks| - 1].text
  }

  /** The text kept so far, of which the last `pending` blocks are openers of blank text. */
  datatype State = State(blocks: seq<Block>, pending: nat)

  /** Deleting the last `count` openers before `text` joins their text to it. */
  function Joined(blocks: seq<Block>, count: nat, text: Text): (r: seq<Block>)
    requires count < |blocks|
    ensures r != []
  {
    var last := blocks[|blocks| - 1];
    if count == 0 then blocks[..|blocks| - 1] + [last.(text := last.text + text)]
    else Joined(blocks[..|blocks| - 1], count - 1, last.text + text)
  }

  /** How many pending openers a keyword with `slashes` takes with it. */
  function Exposed(blocks: seq<Block>, pending: nat, slashes: nat): (n: nat)
    requires pending < |blocks|
    ensures n <= pending
  {
    if pending == 0 then 0
    else
      var s := Slashes(Canon(blocks[|blocks| - 1].text));
      if slashes + s <= 1 then 1 + Exposed(blocks[..|blocks| - 1], pending - 1, slashes + s) else 0
  }

  function Next(s: State, bracket: Rune, text: Text): (r: State)
    requires s.pending < |s.blocks|
    ensures r.pending < |r.blocks|
  {
    var c := Canon(text);
    var kept := s.blocks + [Block([bracket], text)];
    if !bracket.Opening? then State(kept, 0)
    else if Keyword(c) then State(Joined(s.blocks, Exposed(s.blocks, s.pending, Slashes(c)), text), 0)
    else if Blank(c) then State(kept, s.pending + 1)
    else State(kept, 0)
  }

  ghost predicate Plain(t: Text) {
    forall r <- t :: !Bracket(r)
  }

  /** A bracket and its text, of which nothing opens a tag. */
  ghost predicate Sound(b: Block) {
    && |b.bracket| == 1 && Bracket(b.bracket[0]) && Plain(b.text)
    && (b.bracket[0].Opening? ==> !Keyword(Canon(b.text)))
  }

  ghost predicate Kept(blocks: seq<Block>) {
    && blocks != []
    && if |blocks| == 1 then blocks[0].bracket == [] && Plain(blocks[0].text)
       else Sound(blocks[|blocks| - 1]) && Kept(blocks[..|blocks| - 1])
  }

  /** Joining a keyword to the block's text leaves no keyword. */
  ghost predicate Firm(b: Block) {
    b.bracket != [] && b.bracket[0].Opening? ==> !Blank(Canon(b.text)) && !Keyword(Canon(b.text))
  }

  /** The last `pending` blocks are openers of blank text, and the block before them is firm. */
  ghost predicate Waiting(blocks: seq<Block>, pending: nat) {
    && pending < |blocks|
    && var last := blocks[|blocks| - 1];
       if pending == 0 then Firm(last)
       else |last.bracket| == 1 && last.bracket[0].Opening? && Blank(Canon(last.text)) && Waiting(blocks[..|blocks| - 1], pending - 1)
  }

  ghost predicate Inv(s: State) {
    Kept(s.blocks) && Waiting(s.blocks, s.pending)
  }

  lemma BlankIsNoKeyword(c: Text)
    requires Blank(c)
    ensures !Keyword(c)
  {
  }

  /** Replacing the last block's text keeps the blocks sound when the new text is firm. */
  lemma Relabelled(blocks: seq<Block>, text: Text)
    requires Kept(blocks) && Plain(text)
    requires Firm(blocks[|blocks| - 1].(text := text))
    ensures var out := blocks[..|blocks| - 1] + [blocks[|blocks| - 1].(text := text)]; Kept(out) && Waiting(out, 0)
  {
    hide Canon, Keyword, Blank;
    var out := blocks[..|blocks| - 1] + [blocks[|blocks| - 1].(text := text)];
    assert out[..|out| - 1] == blocks[..|blocks| - 1];
  }

  lemma {:induction false} JoinedKeeps(blocks: seq<Block>, pending: nat, text: Text)
    requires Kept(blocks) && Waiting(blocks, pending) && Plain(text) && Keyword(Canon(text))
    ensures Inv(State(Joined(blocks, Exposed(blocks, pending, Slashes(Canon(text))), text), 0))
    decreases pending
  {
    hide Canon, Keyword, Blank, Slashes;
    var last := blocks[|blocks| - 1];
    var a, x := Canon(last.text), Canon(text);
    CanonJoins(last.text, text);
    if pending > 0 && Slashes(x) + Slashes(a) <= 1 {
      BlankBeforeKeyword(a, x);
      JoinedKeeps(blocks[..|blocks| - 1], pending - 1, last.text + text);
    } else {
      if pending > 0 {
        SlashBeforeSlash(a, x);
      } else if last.bracket != [] && last.bracket[0].Opening? {
        FirmBeforeKeyword(a, x);
      }
      Relabelled(blocks, last.text + text);
    }
  }

  lemma NextKeeps(s: State, bracket: Rune, text: Text)
    requires Inv(s) && Bracket(bracket) && Plain(text)
    ensures Inv(Next(s, bracket, text))
  {
    hide Canon, Keyword, Blank, Slashes;
    var kept := s.blocks + [Block([bracket], text)];
    assert kept[..|kept| - 1] == s.blocks;
    if bracket.Opening? && Keyword(Canon(text)) {
      JoinedKeeps(s.blocks, s.pending, text);
    } else if Blank(Canon(text)) {
      BlankIsNoKeyword(Canon(text));
    }
  }

  /** The blocks after the first `i` runes of a body. */
  function StateAt(body: Text, i: nat): (s: State)
    requires i <= |body|
    ensures s.pending < |s.blocks|
  {
    if i == 0 then State([Block([], body[..NextBracket(body, 0)])], 0)
    else if Bracket(body[i - 1]) then Next(StateAt(body, i - 1), body[i - 1], body[i..NextBracket(body, i)])
    else StateAt(body, i - 1)
  }

  /** The body with its tag openers removed. */
  function Defanged(body: Text): Text {
    Flatten(StateAt(body, |body|).blocks)
  }

  lemma {:induction false} StateKeeps(body: Text, i: nat)
    requires i <= |body|
    ensures Inv(StateAt(body, i))
  {
    hide Canon, Keyword, Blank, Slashes, Next;
    if i == 0 {
    } else {
      StateKeeps(body, i - 1);
      if Bracket(body[i - 1]) {
        NextKeeps(StateAt(body, i - 1), body[i - 1], body[i..NextBracket(body, i)]);
      }
    }
  }

  lemma {:induction false} NextBracketBefore(a: Text, r: Rune, x: Text, i: nat)
    requires i <= |a| && Bracket(r)
    ensures NextBracket(a + [r] + x, i) == NextBracket(a, i)
    decreases |a| - i
  {
    if i < |a| && !Bracket(a[i]) {
      NextBracketBefore(a, r, x, i + 1);
    }
  }

  lemma {:induction false} NextBracketPlain(t: Text, i: nat)
    requires i <= |t| && Plain(t[i..])
    ensures NextBracket(t, i) == |t|
    decreases |t| - i
  {
    if i < |t| {
      assert t[i] == t[i..][0];
      assert t[i + 1..] == t[i..][1..];
      NextBracketPlain(t, i + 1);
    }
  }

  /** A bracket and plain text after it add a tag opener exactly when the two form one. */
  lemma TagsOfLast(a: Text, r: Rune, x: Text, p: nat)
    requires Bracket(r) && Plain(x) && p <= |a|
    ensures TagAt(a + [r] + x, p) <==> if p < |a| then TagAt(a, p) else r.Opening? && Keyword(Canon(x))
  {
    hide Keyword, Canon;
    var t := a + [r] + x;
    if p < |a| {
      NextBracketBefore(a, r, x, p + 1);
      assert t[p + 1..NextBracket(a, p + 1)] == a[p + 1..NextBracket(a, p + 1)];
    } else {
      assert t[p + 1..] == x;
      NextBracketPlain(t, p + 1);
      assert t[p + 1..|t|] == x;
    }
  }

  lemma {:induction false} KeptIsTagFree(blocks: seq<Block>)
    requires Kept(blocks)
    ensures TagFree(Flatten(blocks))
  {
    hide Keyword, Canon;
    var rest, last := blocks[..|blocks| - 1], blocks[|blocks| - 1];
    var t := Flatten(blocks);
    if |blocks| == 1 {
      assert t == last.text;
      assert forall p | 0 <= p < |t| :: t[p] in last.text && !Bracket(t[p]);
    } else {
      KeptIsTagFree(rest);
      assert t == Flatten(rest) + [last.bracket[0]] + last.text;
      forall p | 0 <= p < |t| ensures !TagAt(t, p) {
        if p <= |Flatten(rest)| {
          TagsOfLast(Flatten(rest), last.bracket[0], last.text, p);
        } else {
          assert t[p] in last.text;
        }
      }
    }
  }

  /** No opening bracket left in the text opens a tag, whatever the deletions joined. */
  lemma DefangedIsTagFree(body: Text)
    ensures TagFree(Defanged(body))
  {
    StateKeeps(body, |body|);
    KeptIsTagFree(StateAt(body, |body|).blocks);
  }

  /** `u` with some opening brackets deleted is `t`. */
  ghost predicate Thins(t: Text, u: Text)
    decreases |u|
  {
    if u == [] then t == []
    else
      || (t != [] && t[|t| - 1] == u[|u| - 1] && Thins(t[..|t| - 1], u[..|u| - 1]))
      || (u[|u| - 1].Opening? && Thins(t, u[..|u| - 1]))
  }

  lemma {:induction false} ThinsMore(t: Text, u: Text, x: Text)
    requires Thins(t, u)
    ensures Thins(t + x, u + x)
  {
    if x == [] {
      assert t + x == t && u + x == u;
    } else {
      ThinsMore(t, u, x[..|x| - 1]);
      assert (t + x)[..|t + x| - 1] == t + x[..|x| - 1];
      assert (u + x)[..|u + x| - 1] == u + x[..|x| - 1];
    }
  }

  lemma {:induction false} JoinedThins(blocks: seq<Block>, pending: nat, count: nat, text: Text)
    requires Waiting(blocks, pending) && count <= pending
    ensures Thins(Flatten(Joined(blocks, count, text)), Flatten(blocks) + text)
    decreases count
  {
    hide Keyword, Canon, Blank;
    var rest, last := blocks[..|blocks| - 1], blocks[|blocks| - 1];
    var whole := Flatten(blocks) + text;
    if count == 0 {
      var out := rest + [last.(text := last.text + text)];
      assert out[..|out| - 1] == rest;
      assert Flatten(out) == whole;
      Same(whole);
    } else {
      JoinedThins(rest, pending - 1, count - 1, last.text + text);
      var tail := last.text + text;
      assert last.bracket == [last.bracket[0]];
      assert whole == Flatten(rest) + [last.bracket[0]] + tail;
      Deleted(Flatten(rest), last.bracket[0], tail);
      ThinsCompose(Flatten(Joined(blocks, count, text)), Flatten(rest) + tail, whole);
    }
  }

  lemma {:induction false} Same(t: Text)
    ensures Thins(t, t)
  {
    if t != [] {
      Same(t[..|t| - 1]);
    }
  }

  lemma Deleted(a: Text, r: Rune, x: Text)
    requires r.Opening?
    ensures Thins(a + x, a + [r] + x)
  {
    Same(a);
    assert (a + [r])[..|a|] == a;
    ThinsMore(a, a + [r], x);
  }

  lemma {:induction false} ThinsCompose(t: Text, u: Text, v: Text)
    requires Thins(t, u) && Thins(u, v)
    ensures Thins(t, v)
    decreases |v|
  {
    if v != [] {
      var rest := v[..|v| - 1];
      if u != [] && u[|u| - 1] == v[|v| - 1] && Thins(u[..|u| - 1], rest) {
        if t != [] && t[|t| - 1] == u[|u| - 1] && Thins(t[..|t| - 1], u[..|u| - 1]) {
          ThinsCompose(t[..|t| - 1], u[..|u| - 1], rest);
        } else {
          ThinsCompose(t, u[..|u| - 1], rest);
        }
      } else {
        ThinsCompose(t, u, rest);
      }
    }
  }

  lemma FlattenAppends(blocks: seq<Block>, r: Rune, x: Text)
    ensures Flatten(blocks + [Block([r], x)]) == Flatten(blocks) + ([r] + x)
  {
    var kept := blocks + [Block([r], x)];
    assert kept[..|kept| - 1] == blocks;
  }

  lemma NextThins(s: State, bracket: Rune, text: Text)
    requires Inv(s)
    ensures Thins(Flatten(Next(s, bracket, text).blocks), Flatten(s.blocks) + ([bracket] + text))
  {
    hide Keyword, Canon, Blank, Slashes, Flatten, Thins, Joined, Exposed, Kept;
    var was := Flatten(s.blocks);
    var whole := was + ([bracket] + text);
    FlattenAppends(s.blocks, bracket, text);
    Same(whole);
    if bracket.Opening? && Keyword(Canon(text)) {
      var count := Exposed(s.blocks, s.pending, Slashes(Canon(text)));
      JoinedThins(s.blocks, s.pending, count, text);
      Deleted(was, bracket, text);
      assert was + [bracket] + text == whole;
      ThinsCompose(Flatten(Joined(s.blocks, count, text)), was + text, whole);
    }
  }

  lemma {:induction false} StateThins(body: Text, i: nat)
    requires i <= |body|
    ensures Thins(Flatten(StateAt(body, i).blocks), body[..NextBracket(body, i)])
  {
    hide Thins, Next, Inv;
    var n := NextBracket(body, i);
    if i == 0 {
      assert Flatten(StateAt(body, 0).blocks) == body[..n];
      Same(body[..n]);
    } else {
      StateThins(body, i - 1);
      if Bracket(body[i - 1]) {
        var s, more := StateAt(body, i - 1), [body[i - 1]] + body[i..n];
        StateKeeps(body, i - 1);
        NextThins(s, body[i - 1], body[i..n]);
        ThinsMore(Flatten(s.blocks), body[..i - 1], more);
        assert body[..n] == body[..i - 1] + more;
        ThinsCompose(Flatten(StateAt(body, i).blocks), Flatten(s.blocks) + more, body[..n]);
      }
    }
  }

  /** Only opening brackets are deleted: everything else stays, in its order. */
  lemma DefangedThins(body: Text)
    ensures Thins(Defanged(body), body)
  {
    StateThins(body, |body|);
    assert body[..|body|] == body;
  }

  lemma {:induction false} TagFreeStays(body: Text, i: nat)
    requires i <= |body| && TagFree(body)
    ensures Flatten(StateAt(body, i).blocks) == body[..NextBracket(body, i)]
  {
    hide Keyword, Canon, Blank, Slashes;
    var n := NextBracket(body, i);
    if i == 0 {
    } else {
      TagFreeStays(body, i - 1);
      if Bracket(body[i - 1]) {
        assert !TagAt(body, i - 1);
        var s, text := StateAt(body, i - 1), body[i..n];
        var kept := s.blocks + [Block([body[i - 1]], text)];
        assert kept[..|kept| - 1] == s.blocks;
        assert body[..n] == body[..i - 1] + [body[i - 1]] + text;
      }
    }
  }

  /** A body is left alone exactly when nothing in it opens a tag. */
  lemma UntouchedIff(body: Text)
    ensures Defanged(body) == body <==> TagFree(body)
  {
    DefangedIsTagFree(body);
    if TagFree(body) {
      TagFreeStays(body, |body|);
      assert body[..|body|] == body;
    }
  }

  lemma Idempotent(body: Text)
    ensures Defanged(Defanged(body)) == Defanged(body)
  {
    DefangedIsTagFree(body);
    UntouchedIff(Defanged(body));
  }

  /** No deletion is wasted: had the pass spared an opener it took with a keyword, that opener would
      now open a tag. */
  lemma {:induction false} EveryDeletionIsNeeded(blocks: seq<Block>, pending: nat, count: nat, text: Text)
    requires Waiting(blocks, pending) && Plain(text) && Keyword(Canon(text)) && Kept(blocks)
    requires count < Exposed(blocks, pending, Slashes(Canon(text)))
    ensures !TagFree(Flatten(Joined(blocks, count, text)))
    decreases pending
  {
    hide Canon, Keyword, Blank, Slashes;
    var rest, last := blocks[..|blocks| - 1], blocks[|blocks| - 1];
    var more := last.text + text;
    CanonJoins(last.text, text);
    BlankBeforeKeyword(Canon(last.text), Canon(text));
    if count == 0 {
      var out := rest + [last.(text := more)];
      assert out[..|out| - 1] == rest;
      var before := Flatten(rest);
      assert last.bracket == [last.bracket[0]];
      assert Flatten(out) == before + [last.bracket[0]] + more;
      TagsOfLast(before, last.bracket[0], more, |before|);
    } else {
      EveryDeletionIsNeeded(rest, pending - 1, count - 1, more);
    }
  }

  /** A pending opener: where it starts and ends in the body, and the slashes of the text after it. */
  datatype Prefix = Prefix(start: nat, end: nat, slashes: nat)

  /** The openers lie in order between `copied` and `n`. */
  ghost predicate Ordered(copied: nat, ps: seq<Prefix>, n: nat) {
    if ps == [] then copied <= n
    else ps[|ps| - 1].start < ps[|ps| - 1].end <= n && Ordered(copied, ps[..|ps| - 1], ps[|ps| - 1].start)
  }

  lemma {:induction false} OrderedBound(copied: nat, ps: seq<Prefix>, n: nat)
    requires Ordered(copied, ps, n)
    ensures copied <= n
  {
    if ps != [] {
      OrderedBound(copied, ps[..|ps| - 1], ps[|ps| - 1].start);
    }
  }

  lemma {:induction false} OrderedPrefix(copied: nat, ps: seq<Prefix>, n: nat, k: nat)
    requires Ordered(copied, ps, n) && k < |ps|
    ensures Ordered(copied, ps[..k], ps[k].start) && ps[k].start < ps[k].end <= n
  {
    if k < |ps| - 1 {
      OrderedPrefix(copied, ps[..|ps| - 1], ps[|ps| - 1].start, k);
      assert ps[..|ps| - 1][..k] == ps[..k];
    }
  }

  /** The builder, the body and the pending stack describe the blocks of the text before `n`. */
  ghost predicate Aligned(blocks: seq<Block>, result: Text, body: Text, copied: nat, ps: seq<Prefix>, n: nat)
    requires n <= |body|
  {
    if ps == [] then copied <= n && Flatten(blocks) == result + body[copied..n]
    else
      var p := ps[|ps| - 1];
      && blocks != [] && p.start < p.end <= n
      && blocks[|blocks| - 1] == Block(body[p.start..p.end], body[p.end..n])
      && p.slashes == Slashes(Canon(body[p.end..n]))
      && Aligned(blocks[..|blocks| - 1], result, body, copied, ps[..|ps| - 1], p.start)
  }

  lemma {:induction false} AlignedText(blocks: seq<Block>, result: Text, body: Text, copied: nat, ps: seq<Prefix>, n: nat)
    requires n <= |body| && Aligned(blocks, result, body, copied, ps, n)
    ensures Ordered(copied, ps, n) && copied <= n && Flatten(blocks) == result + body[copied..n]
  {
    hide Slashes, Canon;
    if ps != [] {
      var p := ps[|ps| - 1];
      AlignedText(blocks[..|blocks| - 1], result, body, copied, ps[..|ps| - 1], p.start);
      assert body[copied..n] == body[copied..p.start] + body[p.start..p.end] + body[p.end..n];
    }
  }

  /** The text before `n` without the last `count` pending openers. */
  function Cut(result: Text, body: Text, copied: nat, ps: seq<Prefix>, count: nat, n: nat): Text
    requires n <= |body| && count <= |ps| && Ordered(copied, ps, n)
  {
    OrderedBound(copied, ps, n);
    if count == 0 then result + body[copied..n]
    else
      var p := ps[|ps| - 1];
      Cut(result, body, copied, ps[..|ps| - 1], count - 1, p.start) + body[p.end..n]
  }

  lemma {:induction false} CutIsJoined(
      blocks: seq<Block>, result: Text, body: Text, copied: nat, ps: seq<Prefix>, count: nat, n: nat, text: Text)
    requires n <= |body| && Aligned(blocks, result, body, copied, ps, n) && count <= |ps| < |blocks|
    ensures Ordered(copied, ps, n) && Flatten(Joined(blocks, count, text)) == Cut(result, body, copied, ps, count, n) + text
    decreases count
  {
    hide Slashes, Canon;
    AlignedText(blocks, result, body, copied, ps, n);
    var rest, last := blocks[..|blocks| - 1], blocks[|blocks| - 1];
    if count == 0 {
      var out := rest + [last.(text := last.text + text)];
      assert out[..|out| - 1] == rest;
    } else {
      var p := ps[|ps| - 1];
      CutIsJoined(rest, result, body, copied, ps[..|ps| - 1], count - 1, p.start, last.text + text);
    }
  }

  /** The first pending opener a keyword with `slashes` takes with it. */
  function First(ps: seq<Prefix>, slashes: nat): (n: nat)
    ensures n <= |ps|
  {
    if ps != [] && slashes + ps[|ps| - 1].slashes <= 1 then First(ps[..|ps| - 1], slashes + ps[|ps| - 1].slashes) else |ps|
  }

  lemma {:induction false} FirstIsExposed(
      blocks: seq<Block>, result: Text, body: Text, copied: nat, ps: seq<Prefix>, n: nat, slashes: nat)
    requires n <= |body| && Aligned(blocks, result, body, copied, ps, n) && |ps| < |blocks|
    ensures |ps| - First(ps, slashes) == Exposed(blocks, |ps|, slashes)
  {
    hide Slashes, Canon, Flatten;
    if ps != [] && slashes + ps[|ps| - 1].slashes <= 1 {
      var p := ps[|ps| - 1];
      FirstIsExposed(blocks[..|blocks| - 1], result, body, copied, ps[..|ps| - 1], p.start, slashes + p.slashes);
    }
  }

  /** Copies the body up to `i` without the pending openers from `first` on. */
  method CopyWithout(result: Text, body: Text, copied: nat, pending: seq<Prefix>, first: nat, i: nat) returns (out: Text)
    requires i <= |body| && first <= |pending| && Ordered(copied, pending, i)
    ensures out == Cut(result, body, copied, pending, |pending| - first, i)
  {
    hide Cut;
    out := result;
    var done: nat := copied;
    var k := first;
    ghost var at: nat := if first < |pending| then pending[first].start else i;
    StartsAt(result, body, copied, pending, first, i);
    while k < |pending|
      invariant first <= k <= |pending| && at == (if k < |pending| then pending[k].start else i)
      invariant at <= i && Ordered(copied, pending[..k], at) && done <= at
      invariant out + body[done..at] == Cut(result, body, copied, pending[..k], k - first, at)
    {
      ghost var next: nat := if k + 1 < |pending| then pending[k + 1].start else i;
      StepsTo(result, body, copied, pending, first, k, i);
      out := out + body[done..pending[k].start];
      done := pending[k].end;
      k, at := k + 1, next;
    }
    assert pending[..|pending|] == pending;
    out := out + body[done..i];
  }

  lemma StartsAt(result: Text, body: Text, copied: nat, ps: seq<Prefix>, k: nat, n: nat)
    requires n <= |body| && k <= |ps| && Ordered(copied, ps, n)
    ensures var at: nat := if k < |ps| then ps[k].start else n;
            && copied <= at <= n && Ordered(copied, ps[..k], at)
            && result + body[copied..at] == Cut(result, body, copied, ps[..k], 0, at)
  {
    if k < |ps| {
      OrderedPrefix(copied, ps, n, k);
      OrderedBound(copied, ps[..k], ps[k].start);
    } else {
      assert ps[..k] == ps;
      OrderedBound(copied, ps, n);
    }
  }

  lemma StepsTo(result: Text, body: Text, copied: nat, ps: seq<Prefix>, first: nat, k: nat, n: nat)
    requires n <= |body| && first <= k < |ps| && Ordered(copied, ps, n)
    ensures var next: nat := if k + 1 < |ps| then ps[k + 1].start else n;
            && ps[k].start < ps[k].end <= next <= n && Ordered(copied, ps[..k], ps[k].start) && Ordered(copied, ps[..k + 1], next)
            && Cut(result, body, copied, ps[..k + 1], k + 1 - first, next)
            == Cut(result, body, copied, ps[..k], k - first, ps[k].start) + body[ps[k].end..next]
  {
    OrderedPrefix(copied, ps, n, k);
    if k + 1 < |ps| {
      OrderedPrefix(copied, ps, n, k + 1);
    } else {
      assert ps[..k + 1] == ps;
    }
    assert ps[..k + 1][..k] == ps[..k];
  }

  /** The scan's variables stand for the blocks after the first `i` runes. */
  ghost predicate Scanned(body: Text, i: nat, result: Text, copied: nat, pending: seq<Prefix>)
    requires i <= |body|
  {
    && |pending| == StateAt(body, i).pending
    && Aligned(StateAt(body, i).blocks, result, body, copied, pending, NextBracket(body, i))
  }

  lemma ScanStarts(body: Text)
    ensures Scanned(body, 0, [], 0, [])
  {
    assert Flatten(StateAt(body, 0).blocks) == body[..NextBracket(body, 0)];
  }

  lemma ScanSkips(body: Text, i: nat, result: Text, copied: nat, pending: seq<Prefix>)
    requires i < |body| && Scanned(body, i, result, copied, pending) && !Bracket(body[i])
    ensures Scanned(body, i + 1, result, copied, pending)
  {
    hide Aligned;
  }

  lemma AlignedKeeps(blocks: seq<Block>, result: Text, body: Text, copied: nat, ps: seq<Prefix>, i: nat, n: nat)
    requires i < n <= |body| && Aligned(blocks, result, body, copied, ps, i)
    ensures var kept := blocks + [Block([body[i]], body[i + 1..n])];
            && Aligned(kept, result, body, copied, [], n)
            && Aligned(kept, result, body, copied, ps + [Prefix(i, i + 1, Slashes(Canon(body[i + 1..n])))], n)
  {
    hide Canon, Slashes, Flatten, Ordered;
    var text := body[i + 1..n];
    var kept := blocks + [Block([body[i]], text)];
    assert kept[..|kept| - 1] == blocks;
    var more := ps + [Prefix(i, i + 1, Slashes(Canon(text)))];
    assert more[..|more| - 1] == ps;
    assert body[i..i + 1] == [body[i]];
    AlignedText(blocks, result, body, copied, ps, i);
    FlattenAppends(blocks, body[i], text);
    assert result + body[copied..n] == result + body[copied..i] + ([body[i]] + text);
  }

  /** At a bracket that is kept, the stack is emptied, or the bracket pushed when blank text follows it. */
  lemma ScanKeeps(body: Text, i: nat, result: Text, copied: nat, pending: seq<Prefix>)
    requires i < |body| && Scanned(body, i, result, copied, pending) && Bracket(body[i])
    requires var c := Canon(body[i + 1..NextBracket(body, i + 1)]); body[i].Opening? ==> !Keyword(c)
    ensures var c := Canon(body[i + 1..NextBracket(body, i + 1)]);
            var more := if body[i].Opening? && Blank(c) then pending + [Prefix(i, i + 1, Slashes(c))] else [];
            Scanned(body, i + 1, result, copied, more)
  {
    hide Keyword, Canon, Blank, Slashes, Joined, Exposed, Aligned;
    AlignedKeeps(StateAt(body, i).blocks, result, body, copied, pending, i, NextBracket(body, i + 1));
  }

  lemma ScanCuts(body: Text, i: nat, result: Text, copied: nat, pending: seq<Prefix>, slashes: nat)
    requires i < |body| && Scanned(body, i, result, copied, pending) && body[i].Opening?
    requires var c := Canon(body[i + 1..NextBracket(body, i + 1)]); Keyword(c) && slashes == Slashes(c)
    ensures Ordered(copied, pending, i)
    ensures Scanned(body, i + 1, Cut(result, body, copied, pending, |pending| - First(pending, slashes), i), i + 1, [])
  {
    hide Keyword, Canon, Blank, Slashes, Flatten, Joined, Cut;
    var s, n := StateAt(body, i), NextBracket(body, i + 1);
    var text := body[i + 1..n];
    var count := |pending| - First(pending, slashes);
    AlignedText(s.blocks, result, body, copied, pending, i);
    FirstIsExposed(s.blocks, result, body, copied, pending, i, slashes);
    CutIsJoined(s.blocks, result, body, copied, pending, count, i, text);
  }

  /** The pass over the body: a stack of pending openers, how much of the body is copied, and the builder. */
  method DefangTags(body: Text) returns (out: Text)
    ensures out == Defanged(body)
  {
    hide *;
    var pending: seq<Prefix> := [];
    var result: Text := [];
    var copied, i := 0, 0;
    ScanStarts(body);
    while i < |body|
      invariant i <= |body| && (copied == 0 ==> result == []) && Scanned(body, i, result, copied, pending)
    {
      if !Bracket(body[i]) {
        ScanSkips(body, i, result, copied, pending);
        i := i + 1;
        continue;
      }
      var next := i + 1;
      var candidate := Canon(body[next..NextBracket(body, next)]);
      if body[i].Opening? && Keyword(candidate) {
        ScanCuts(body, i, result, copied, pending, Slashes(candidate));
        var first := FirstExposed(pending, Slashes(candidate));
        result := CopyWithout(result, body, copied, pending, first, i);
        copied, pending := next, [];
      } else {
        ScanKeeps(body, i, result, copied, pending);
        pending := if body[i].Opening? && Blank(candidate) then pending + [Prefix(i, next, Slashes(candidate))] else [];
      }
      i := next;
    }
    ScanEnds(body, result, copied, pending);
    if copied == 0 {
      return body;
    }
    return result + body[copied..];
  }

  /** The inner loop of the scan: the enclosing openers the deletion would expose. */
  method FirstExposed(pending: seq<Prefix>, slashes: nat) returns (first: nat)
    ensures first == First(pending, slashes)
  {
    first := |pending|;
    var slash: nat := slashes;
    assert pending[..first] == pending;
    while first > 0 && slash + pending[first - 1].slashes <= 1
      invariant first <= |pending| && First(pending[..first], slash) == First(pending, slashes)
    {
      assert pending[..first][..first - 1] == pending[..first - 1];
      first := first - 1;
      slash := slash + pending[first].slashes;
    }
  }

  lemma ScanEnds(body: Text, result: Text, copied: nat, pending: seq<Prefix>)
    requires Scanned(body, |body|, result, copied, pending)
    ensures copied <= |body| && Defanged(body) == result + body[copied..]
  {
    hide Aligned, Flatten;
    AlignedText(StateAt(body, |body|).blocks, result, body, copied, pending, |body|);
    assert body[copied..|body|] == body[copied..];
  }

  /** The kinds of rune a sender, a nonce or a marker is made of. */
  predicate Token(t: Text) {
    t != [] && forall r <- t :: r.G? || r.A? || r.N? || r.Other? || r.Separator?
  }

  /** The tag text an envelope's opening and closing share. */
  function Head(sender: Text, nonce: Text): Text {
    [G(0), A(0), N(0), G(1)] + (if sender == [] then [] else [Separator(0)] + sender) + [Separator(1)] + nonce
  }

  function Opener(head: Text, marker: Text): Text {
    [Opening(0)] + head + (if marker == [] then [] else [Space(0)] + marker) + [Closing(0)]
  }

  /** The envelope on the wire, or None when its sender, nonce or marker is malformed. */
  function Render(sender: Text, nonce: Text, marker: Text, body: Text): (wire: Option<Text>)
  {
    if (sender != [] && !Token(sender)) || !Token(nonce) || (marker != [] && !Token(marker)) then None
    else
      var head, kept := Head(sender, nonce), Defanged(body);
      var spaced := if kept == [] then [] else kept + [Space(0)];
      Some(Opener(head, marker) + ([Space(0)] + spaced + [Opening(0), Slash(0)] + head + [Closing(0)]))
  }

  lemma {:induction false} CanonSame(t: Text)
    requires forall r <- t :: !r.Invisible?
    ensures Canon(t) == t
  {
    if t != [] {
      CanonSame(t[1..]);
    }
  }

  lemma HeadIsNamed(sender: Text, nonce: Text, rest: Text)
    ensures var t := Head(sender, nonce) + rest; Keyword(t) && Keyword([Slash(0)] + t)
  {
    var t := Head(sender, nonce) + rest;
    assert ([Slash(0)] + t)[1..] == t;
    assert t[4..][0] == t[4];
    assert Trim(t[4..]) == t[4..];
    assert Letters(t) && Trim(t) == t;
  }

  /** A head is keyword text with or without a slash before it, whatever follows it. */
  lemma HeadIsKeyword(sender: Text, nonce: Text, rest: Text)
    requires (sender == [] || Token(sender)) && Token(nonce) && forall r <- rest :: !r.Invisible?
    ensures var t := Head(sender, nonce) + rest; Keyword(Canon(t)) && Keyword(Canon([Slash(0)] + t))
  {
    hide Keyword, Canon;
    var t := Head(sender, nonce) + rest;
    HeadIsNamed(sender, nonce, rest);
    CanonSame(t);
    CanonSame([Slash(0)] + t);
  }

  /** A trailing space makes no keyword. */
  lemma {:induction false} SpaceIsInert(c: Text)
    requires Keyword(c + [Space(0)])
    ensures Keyword(c)
  {
    var sp := [Space(0)];
    TrimJoins(c, sp);
    var u := Trim(c);
    if u != [] && u[0].Slash? {
      assert (u + sp)[1..] == u[1..] + sp;
      TrimJoins(u[1..], sp);
    }
    var b := Body(c);
    if |b| >= 4 {
      assert (b + sp)[4..] == b[4..] + sp;
      TrimJoins(b[4..], sp);
    }
  }

  lemma {:induction false} NextBracketAfter(a: Text, b: Text, i: nat)
    requires i <= |b|
    ensures NextBracket(a + b, |a| + i) == |a| + NextBracket(b, i)
    decreases |b| - i
  {
    if i < |b| && !Bracket(b[i]) {
      NextBracketAfter(a, b, i + 1);
    }
  }

  lemma TagsAfter(a: Text, b: Text, p: nat)
    requires p < |b|
    ensures TagAt(a + b, |a| + p) <==> TagAt(b, p)
  {
    hide Keyword, Canon;
    NextBracketAfter(a, b, p + 1);
    assert (a + b)[|a| + p + 1..|a| + NextBracket(b, p + 1)] == b[p + 1..NextBracket(b, p + 1)];
  }

  lemma TagsBefore(a: Text, r: Rune, x: Text, p: nat)
    requires Bracket(r) && p < |a|
    ensures TagAt(a + [r] + x, p) <==> TagAt(a, p)
  {
    hide Keyword, Canon;
    NextBracketBefore(a, r, x, p + 1);
    assert (a + [r] + x)[p + 1..NextBracket(a, p + 1)] == a[p + 1..NextBracket(a, p + 1)];
  }

  lemma {:induction false} NextBracketSpaced(t: Text, i: nat)
    requires i <= |t|
    ensures var n := NextBracket(t, i); NextBracket(t + [Space(0)], i) == if n < |t| then n else |t| + 1
    decreases |t| - i
  {
    if i < |t| && !Bracket(t[i]) {
      NextBracketSpaced(t, i + 1);
    }
  }

  /** A body followed by a space opens no tag either. */
  lemma SpacedIsTagFree(t: Text)
    requires TagFree(t)
    ensures TagFree(t + [Space(0)])
  {
    hide Keyword, Canon;
    var u := t + [Space(0)];
    forall p | 0 <= p < |u| ensures !TagAt(u, p) {
      if p < |t| {
        assert !TagAt(t, p);
        var n := NextBracket(t, p + 1);
        NextBracketSpaced(t, p + 1);
        if n < |t| {
          assert u[p + 1..n] == t[p + 1..n];
        } else if Keyword(Canon(u[p + 1..|u|])) {
          assert u[p + 1..|u|] == t[p + 1..n] + [Space(0)];
          CanonJoins(t[p + 1..n], [Space(0)]);
          CanonSame([Space(0)]);
          SpaceIsInert(Canon(t[p + 1..n]));
        }
      }
    }
  }

  lemma OpenerTags(named: Text, p: nat)
    requires Plain(named) && Keyword(Canon(named)) && p <= |named|
    ensures TagAt([Opening(0)] + named, p) <==> p == 0
  {
    hide Keyword, Canon, NextBracket;
    if p == 0 {
      TagsOfLast([], Opening(0), named, 0);
      assert [] + [Opening(0)] + named == [Opening(0)] + named;
    } else {
      assert ([Opening(0)] + named)[p] in named;
    }
  }

  lemma CloserTags(middle: Text, named: Text, p: nat)
    requires TagFree(middle) && Plain(named) && Keyword(Canon(named)) && p <= |middle| + |named| + 1
    ensures TagAt(middle + [Opening(0)] + named + [Closing(0)], p) <==> p == |middle|
  {
    hide Keyword, Canon, NextBracket;
    var t := middle + [Opening(0)] + named;
    assert t + [Closing(0)] == t + [Closing(0)] + [];
    TagsOfLast(t, Closing(0), [], p);
    if p <= |middle| {
      TagsOfLast(middle, Opening(0), named, p);
    } else if p < |t| {
      assert t[p] in named;
    }
  }

  lemma SpacedTags(kept: Text)
    requires TagFree(kept)
    ensures TagFree([Space(0)] + (if kept == [] then [] else kept + [Space(0)]))
  {
    hide Keyword, Canon, NextBracket;
    var spaced := if kept == [] then [] else kept + [Space(0)];
    SpacedIsTagFree(kept);
    var t := [Space(0)] + spaced;
    forall p | 0 <= p < |t| ensures !TagAt(t, p) {
      if p > 0 {
        TagsAfter([Space(0)], spaced, p - 1);
      }
    }
  }

  /** A rendered envelope opens exactly its own two tags, whatever the body says. */
  lemma EnvelopeTags(sender: Text, nonce: Text, marker: Text, body: Text, p: nat)
    requires var wire := Render(sender, nonce, marker, body); wire.Some? && p < |wire.value|
    ensures var wire := Render(sender, nonce, marker, body).value;
            TagAt(wire, p) <==> p == 0 || p == |wire| - |Head(sender, nonce)| - 3
  {
    hide Keyword, Canon, TagAt, Defanged, Head;
    var head, kept := Head(sender, nonce), Defanged(body);
    var more := if marker == [] then [] else [Space(0)] + marker;
    var middle := [Space(0)] + (if kept == [] then [] else kept + [Space(0)]);
    var last := [Slash(0)] + head;
    var first := [Opening(0)] + (head + more);
    var rest := middle + [Opening(0)] + last + [Closing(0)];
    var wire := Render(sender, nonce, marker, body).value;
    assert wire == first + [Closing(0)] + rest;
    HeadIsPlain(sender, nonce);
    HeadIsKeyword(sender, nonce, []);
    assert head + [] == head;
    HeadIsKeyword(sender, nonce, more);
    if p < |first| {
      TagsBefore(first, Closing(0), rest, p);
      OpenerTags(head + more, p);
    } else if p == |first| {
      ClosingOpensNone(wire, p);
    } else {
      DefangedIsTagFree(body);
      SpacedTags(kept);
      TagsAfter(first + [Closing(0)], rest, p - |first| - 1);
      CloserTags(middle, last, p - |first| - 1);
    }
  }

  lemma ClosingOpensNone(t: Text, p: nat)
    requires p < |t| && t[p].Closing?
    ensures !TagAt(t, p)
  {
  }

  lemma HeadIsPlain(sender: Text, nonce: Text)
    requires (sender == [] || Token(sender)) && Token(nonce)
    ensures Plain(Head(sender, nonce))
  {
  }
}
