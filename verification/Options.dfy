/** Scanning a command's options and taking the shared --team selector out of them
    (cmd/gang/flags.go). */
module Options {
  import opened Records

  /** A command's options: whether each one is a switch without a value. */
  type Flags = map<string, bool>

  /** One flag with its value tokens, one operand, or the terminator. An operand has no option name. */
  datatype Word = Word(tokens: seq<string>, option: string, terminator: bool)

  const TEAM := "team"

  function TrimDashes(t: string): (r: string)
    ensures r == [] || r[0] != '-'
  {
    if t != [] && t[0] == '-' then TrimDashes(t[1..]) else t
  }

  /** The text before the first equals sign. */
  function BeforeEquals(t: string): (r: string)
    ensures '=' !in r && r <= t
  {
    if t == [] || t[0] == '=' then [] else [t[0]] + BeforeEquals(t[1..])
  }

  function FlagName(token: string): string {
    BeforeEquals(TrimDashes(token))
  }

  predicate Assigned(token: string) {
    '=' in TrimDashes(token)
  }

  /** Option names hold no equals sign, do not start with a dash and are not empty. */
  predicate WellFormed(flags: Flags) {
    forall n <- flags :: n != "" && n[0] != '-' && '=' !in n
  }

  predicate LooksLikeName(t: string) {
    t != [] && 'a' <= t[0] <= 'z' && forall c <- t :: 'a' <= c <= 'z' || c == '-'
  }

  /** The token is a one-letter option of `flags` with its value attached. */
  predicate Attached(flags: Flags, token: string) {
    && |token| > 2 && token[0] == '-' && token[1] != '-' && FlagName(token) !in flags
    && (!Assigned(token) || |FlagName(token)| == 1 || !LooksLikeName(FlagName(token)))
    && token[1..2] in flags && !flags[token[1..2]]
  }

  predicate IsOption(token: string) {
    token != "-" && token != [] && token[0] == '-'
  }

  /** The option takes the next token as its value. */
  predicate LooksAhead(flags: Flags, token: string) {
    FlagName(token) in flags && !Assigned(token) && !flags[FlagName(token)]
  }

  /** The first word of the arguments, and how many of them it uses. */
  function First(flags: Flags, arguments: seq<string>, ended: bool): (r: (Word, nat))
    requires arguments != []
    ensures 1 <= r.1 <= |arguments|
  {
    var token := arguments[0];
    if !ended && token == "--" then (Word([token], "", true), 1)
    else if ended || !IsOption(token) then (Word([token], "", false), 1)
    else if Attached(flags, token) then (Word([token[..2], token[2..]], token[1..2], false), 1)
    else if LooksAhead(flags, token) && |arguments| > 1 then (Word([token, arguments[1]], FlagName(token), false), 2)
    else (Word([token], FlagName(token), false), 1)
  }

  function Scan(flags: Flags, arguments: seq<string>, ended: bool): seq<Word>
    decreases |arguments|
  {
    if arguments == [] then []
    else
      var (word, used) := First(flags, arguments, ended);
      [word] + Scan(flags, arguments[used..], ended || word.terminator)
  }

  lemma ScanStep(flags: Flags, arguments: seq<string>, ended: bool, i: nat, words: seq<Word>)
    requires i < |arguments| && words + Scan(flags, arguments[i..], ended) == Scan(flags, arguments, false)
    ensures var (word, used) := First(flags, arguments[i..], ended);
            words + [word] + Scan(flags, arguments[i + used..], ended || word.terminator) == Scan(flags, arguments, false)
  {
    hide First;
    var used := First(flags, arguments[i..], ended).1;
    assert arguments[i..][used..] == arguments[i + used..];
  }

  /** The scanner's loop: an index over the arguments, a growing list of words. */
  method ScanOptions(flags: Flags, arguments: seq<string>) returns (words: seq<Word>)
    ensures words == Scan(flags, arguments, false)
  {
    hide Scan, Attached, LooksAhead, FlagName, IsOption;
    words := [];
    var ended, i := false, 0;
    assert arguments[0..] == arguments;
    while i < |arguments|
      invariant i <= |arguments| && words + Scan(flags, arguments[i..], ended) == Scan(flags, arguments, false)
    {
      var token := arguments[i];
      ScanStep(flags, arguments, ended, i, words);
      if !ended && token == "--" {
        ended := true;
        words := words + [Word([token], "", true)];
        i := i + 1;
        continue;
      }
      if ended || !IsOption(token) {
        words := words + [Word([token], "", false)];
        i := i + 1;
        continue;
      }
      if Attached(flags, token) {
        words := words + [First(flags, arguments[i..], ended).0];
        i := i + 1;
        continue;
      }
      var word := Word([token], FlagName(token), false);
      if LooksAhead(flags, token) && i + 1 < |arguments| {
        i := i + 1;
        word := word.(tokens := [token, arguments[i]]);
      }
      words := words + [word];
      i := i + 1;
    }
    ScanOfNone(flags, arguments[i..], ended);
    assert words + [] == words;
  }

  lemma ScanOfNone(flags: Flags, arguments: seq<string>, ended: bool)
    requires arguments == []
    ensures Scan(flags, arguments, ended) == []
  {
  }

  /** The name before an equals sign, behind some dashes. */
  lemma {:induction false} NameRead(name: string, tail: string)
    requires '=' !in name && (tail == "" || tail[0] == '=')
    ensures BeforeEquals(name + tail) == name && ('=' in name + tail <==> tail != "")
  {
    if name == "" {
      assert name + tail == tail;
    } else {
      assert (name + tail)[1..] == name[1..] + tail;
      NameRead(name[1..], tail);
    }
  }

  /** How a long option is read: a switch stands alone, an option with a value takes the next argument
      when there is one, whatever it looks like, and a value behind an equals sign stays with its flag.
      A name the command does not know is kept as it is. */
  lemma ReadsLong(flags: Flags, name: string, value: string, rest: seq<string>)
    requires name != "" && name[0] != '-' && '=' !in name
    ensures First(flags, ["--" + name] + rest, false) ==
              if name in flags && !flags[name] && rest != []
              then (Word(["--" + name, rest[0]], name, false), 2)
              else (Word(["--" + name], name, false), 1)
    ensures First(flags, ["--" + name + "=" + value] + rest, false) == (Word(["--" + name + "=" + value], name, false), 1)
  {
    LongNamed(name, "");
    LongNamed(name, "=" + value);
    assert "--" + name + "" == "--" + name && "--" + name + ("=" + value) == "--" + name + "=" + value;
    hide FlagName, Assigned, LooksLikeName;
  }

  lemma LongNamed(name: string, tail: string)
    requires name != "" && name[0] != '-' && '=' !in name && (tail == "" || tail[0] == '=')
    ensures FlagName("--" + name + tail) == name && (Assigned("--" + name + tail) <==> tail != "")
  {
    NameRead(name, tail);
    assert "--" + name + tail == "--" + (name + tail);
    Trimmed(name + tail);
  }

  lemma Trimmed(t: string)
    requires t != "" && t[0] != '-'
    ensures TrimDashes("-" + t) == t && TrimDashes("--" + t) == t && TrimDashes(t) == t
  {
    assert ("-" + t)[1..] == t && ("--" + t)[1..] == "-" + t;
  }

  /** How an argument behind one dash is read. Its first letter is an option with the rest attached
      when the command knows that letter with a value but not the whole name; unless the argument
      assigns a value to a name of several small letters and dashes, which is then left whole. */
  lemma ReadsShort(flags: Flags, name: string, tail: string, rest: seq<string>)
    requires name != "" && name[0] != '-' && '=' !in name && (tail == "" || tail[0] == '=') && |name + tail| > 1
    ensures var (word, used) := First(flags, ["-" + name + tail] + rest, false);
            if && name !in flags && [name[0]] in flags && !flags[[name[0]]]
               && (tail == "" || |name| == 1 || !('a' <= name[0] <= 'z' && forall c <- name :: 'a' <= c <= 'z' || c == '-'))
            then used == 1 && word == Word(["-" + [name[0]], (name + tail)[1..]], [name[0]], false)
            else && word.option == name && word.tokens[0] == "-" + name + tail && !word.terminator
                 && (used == 2 <==> name in flags && tail == "" && !flags[name] && rest != [])
  {
    NameRead(name, tail);
    var token := "-" + name + tail;
    assert token == "-" + (name + tail) && token[1..] == name + tail;
    Trimmed(name + tail);
    assert token[..2] == "-" + [name[0]] && token[2..] == (name + tail)[1..] && token[1..2] == [name[0]];
  }

  /** A lone dash, text without a dash and everything behind the terminator are operands. */
  lemma ReadsOperand(flags: Flags, token: string, rest: seq<string>)
    ensures First(flags, ["--"] + rest, false) == (Word(["--"], "", true), 1)
    ensures token == "" || token == "-" || token[0] != '-' ==>
              First(flags, [token] + rest, false) == (Word([token], "", false), 1)
    ensures First(flags, [token] + rest, true) == (Word([token], "", false), 1)
  {
  }

  function Joined(texts: seq<string>): string {
    if texts == [] then "" else texts[0] + Joined(texts[1..])
  }

  lemma {:induction false} JoinedTwo(a: seq<string>, b: seq<string>)
    ensures Joined(a + b) == Joined(a) + Joined(b)
  {
    if a == [] {
      assert a + b == b;
    } else {
      assert (a + b)[1..] == a[1..] + b;
      JoinedTwo(a[1..], b);
    }
  }

  /** Scanning loses no text and moves none. */
  lemma {:induction false} ScanKeepsText(flags: Flags, arguments: seq<string>, ended: bool)
    ensures Joined(Tokens(Scan(flags, arguments, ended))) == Joined(arguments)
    decreases |arguments|
  {
    if arguments != [] {
      var (word, used) := First(flags, arguments, ended);
      var rest := Scan(flags, arguments[used..], ended || word.terminator);
      FirstKeepsText(flags, arguments, ended);
      ScanKeepsText(flags, arguments[used..], ended || word.terminator);
      assert Scan(flags, arguments, ended) == [word] + rest;
      hide *;
      JoinedFirst(word, rest, arguments, used);
    }
  }

  lemma JoinedFirst(word: Word, rest: seq<Word>, arguments: seq<string>, used: nat)
    requires used <= |arguments| && Joined(word.tokens) == Joined(arguments[..used])
    requires Joined(Tokens(rest)) == Joined(arguments[used..])
    ensures Joined(Tokens([word] + rest)) == Joined(arguments)
  {
    assert ([word] + rest)[1..] == rest;
    assert Tokens([word] + rest) == word.tokens + Tokens(rest);
    assert arguments == arguments[..used] + arguments[used..];
    hide Tokens, Joined;
    JoinedTwo(word.tokens, Tokens(rest));
    JoinedTwo(arguments[..used], arguments[used..]);
  }

  lemma JoinedOne(a: string)
    ensures Joined([a]) == a
  {
    assert Joined([]) == "";
  }

  lemma JoinedPair(a: string, b: string)
    ensures Joined([a, b]) == a + b
  {
    JoinedOne(b);
    assert [a, b][1..] == [b];
  }

  lemma FirstKeepsText(flags: Flags, arguments: seq<string>, ended: bool)
    requires arguments != []
    ensures var (word, used) := First(flags, arguments, ended); Joined(word.tokens) == Joined(arguments[..used])
  {
    hide FlagName, LooksAhead, IsOption;
    var token := arguments[0];
    JoinedOne(token);
    assert arguments[..1] == [token];
    if Attached(flags, token) {
      assert token == token[..2] + token[2..];
      JoinedPair(token[..2], token[2..]);
    }
    if |arguments| > 1 {
      assert arguments[..2] == [token, arguments[1]];
    }
  }

  /** The word selects a team; an option with three dashes is left for the command to refuse. */
  predicate Selects(w: Word) {
    w.option == TEAM && w.tokens != [] && !("---" <= w.tokens[0])
  }

  function Kept(words: seq<Word>): seq<Word> {
    if words == [] then [] else (if Selects(words[0]) then [] else [words[0]]) + Kept(words[1..])
  }

  function Tokens(words: seq<Word>): seq<string> {
    if words == [] then [] else words[0].tokens + Tokens(words[1..])
  }

  /** The selected value, if the word has one. */
  function TeamValue(w: Word): Option<string>
    requires w.tokens != []
  {
    var t := w.tokens[0];
    if '=' in t then Some(t[|BeforeEquals(t)| + 1..])
    else if |w.tokens| == 2 then Some(w.tokens[1])
    else None
  }

  datatype Taken = Taken(team: Option<string>, rest: seq<string>) | NeedsValue | BlankTeam

  predicate Blank(t: string) {
    forall c <- t :: c == ' ' || '\t' <= c <= '\r'
  }

  /** The last selector among the words. */
  function LastTeam(words: seq<Word>): Option<Word> {
    if words == [] then None
    else
      var later := LastTeam(words[1..]);
      if later.Some? then later else if Selects(words[0]) then Some(words[0]) else None
  }

  function AllTokens(words: seq<Word>): bool {
    forall w <- words :: w.tokens != []
  }

  lemma {:induction false} ScanHasTokens(flags: Flags, arguments: seq<string>, ended: bool)
    ensures AllTokens(Scan(flags, arguments, ended))
    decreases |arguments|
  {
    hide Attached, LooksAhead, FlagName, IsOption;
    if arguments != [] {
      var (word, used) := First(flags, arguments, ended);
      ScanHasTokens(flags, arguments[used..], ended || word.terminator);
    }
  }

  /** What taking the selector out of the words gives. */
  function TeamOf(words: seq<Word>): Taken
    requires AllTokens(words)
  {
    if exists w <- words :: Selects(w) && TeamValue(w).None? then NeedsValue
    else match LastTeam(words)
      case None => Taken(None, Tokens(Kept(words)))
      case Some(w) =>
        LastIsIn(words);
        var team := TeamValue(w).value;
        if Blank(team) then BlankTeam else Taken(Some(team), Tokens(Kept(words)))
  }

  lemma {:induction false} LastIsIn(words: seq<Word>)
    ensures LastTeam(words).Some? ==> LastTeam(words).value in words && Selects(LastTeam(words).value)
  {
    if words != [] {
      LastIsIn(words[1..]);
    }
  }

  /** The loop of a team command: the last selector wins, every other word's tokens are kept. */
  method TakeTeam(own: Flags, arguments: seq<string>) returns (r: Taken)
    ensures AllTokens(Scan(own[TEAM := false], arguments, false))
    ensures r == TeamOf(Scan(own[TEAM := false], arguments, false))
  {
    ScanHasTokens(own[TEAM := false], arguments, false);
    var words := ScanOptions(own[TEAM := false], arguments);
    hide Scan, TeamValue, Blank;
    var team: Option<string> := None;
    var rest: seq<string> := [];
    for i := 0 to |words|
      invariant rest == Tokens(Kept(words[..i]))
      invariant forall w <- words[..i] :: Selects(w) ==> TeamValue(w).Some?
      invariant match LastTeam(words[..i]) case None => team == None case Some(w) => w in words[..i] && team == TeamValue(w)
    {
      var w := words[i];
      Extended(words, i);
      if !Selects(w) {
        rest := rest + w.tokens;
        continue;
      }
      var value := TeamValue(w);
      if value.None? {
        assert w in words && Selects(w);
        return NeedsValue;
      }
      team := value;
    }
    assert words[..|words|] == words;
    LastIsIn(words);
    if team.Some? && Blank(team.value) {
      return BlankTeam;
    }
    return Taken(team, rest);
  }

  lemma Extended(words: seq<Word>, i: nat)
    requires i < |words|
    ensures words[..i + 1] == words[..i] + [words[i]]
    ensures Tokens(Kept(words[..i + 1])) == Tokens(Kept(words[..i])) + if Selects(words[i]) then [] else words[i].tokens
    ensures LastTeam(words[..i + 1]) == if Selects(words[i]) then Some(words[i]) else LastTeam(words[..i])
  {
    assert words[..i + 1] == words[..i] + [words[i]];
    KeptAppends(words[..i], words[i]);
  }

  lemma {:induction false} TokensAppend(words: seq<Word>, w: Word)
    ensures Tokens(words + [w]) == Tokens(words) + w.tokens
  {
    if words == [] {
      assert [w][1..] == [] && words + [w] == [w];
    } else {
      assert (words + [w])[1..] == words[1..] + [w];
      TokensAppend(words[1..], w);
    }
  }

  lemma {:induction false} KeptAppends(words: seq<Word>, w: Word)
    ensures Kept(words + [w]) == Kept(words) + if Selects(w) then [] else [w]
    ensures Tokens(Kept(words + [w])) == Tokens(Kept(words)) + if Selects(w) then [] else w.tokens
    ensures LastTeam(words + [w]) == if Selects(w) then Some(w) else LastTeam(words)
  {
    hide Selects, Tokens;
    TokensAppend(Kept(words), w);
    assert Kept(words) + [] == Kept(words);
    if words == [] {
      assert words + [w] == [w];
    } else {
      assert (words + [w])[1..] == words[1..] + [w];
      KeptAppends(words[1..], w);
    }
  }

  /** What the last selector decides: any selector without a value is refused; otherwise the text behind
      the last one's equals sign, or its second token, is the team, and white space alone is refused. */
  lemma TeamOfMeans(words: seq<Word>, i: nat, flag: string, value: string)
    requires AllTokens(words) && i < |words|
    requires words[i].option == "team" && !("---" <= words[i].tokens[0])
    requires forall j | i < j < |words| :: words[j].option == "team" ==> "---" <= words[j].tokens[0]
    requires '=' !in flag
    requires words[i].tokens == [flag, value] || words[i].tokens[0] == flag + "=" + value
    ensures TeamOf(words) == NeedsValue <==>
            exists j | 0 <= j < |words| ::
              && words[j].option == "team" && !("---" <= words[j].tokens[0])
              && '=' !in words[j].tokens[0] && |words[j].tokens| != 2
    ensures TeamOf(words) != NeedsValue ==>
              if forall c <- value :: c in {' ', '\t', '\n', '\U{0B}', '\U{0C}', '\r'} then TeamOf(words) == BlankTeam
              else TeamOf(words) == Taken(Some(value), Tokens(Kept(words)))
  {
    LastHere(words, i);
    ValueRead(words[i], flag, value);
    BlankMeans(value);
    assert words[i] in words;
    hide Kept, Tokens, LastTeam, Blank, BeforeEquals;
    assert Selects(words[i]) && TeamValue(words[i]) == Some(value);
    forall j | 0 <= j < |words|
      ensures Selects(words[j]) && TeamValue(words[j]).None? <==>
              && words[j].option == "team" && !("---" <= words[j].tokens[0])
              && '=' !in words[j].tokens[0] && |words[j].tokens| != 2
    {
    }
    hide Selects, TeamValue;
  }

  lemma ValueRead(w: Word, flag: string, value: string)
    requires '=' !in flag && (w.tokens == [flag, value] || (w.tokens != [] && w.tokens[0] == flag + "=" + value))
    ensures TeamValue(w) == Some(value)
  {
    NameRead(flag, "=" + value);
    assert flag + "=" + value == flag + ("=" + value);
  }

  lemma BlankMeans(t: string)
    ensures Blank(t) <==> forall c <- t :: c in {' ', '\t', '\n', '\U{0B}', '\U{0C}', '\r'}
  {
  }

  lemma {:induction false} LastHere(words: seq<Word>, i: nat)
    requires i < |words| && Selects(words[i]) && forall j | i < j < |words| :: !Selects(words[j])
    ensures LastTeam(words) == Some(words[i])
  {
    if i > 0 {
      LastHere(words[1..], i - 1);
    } else {
      NoneSelects(words[1..]);
    }
  }

  lemma {:induction false} NoneSelects(words: seq<Word>)
    requires forall w <- words :: !Selects(w)
    ensures LastTeam(words) == None && Kept(words) == words
  {
    if words != [] {
      NoneSelects(words[1..]);
    }
  }

  /** Without a selector nothing is taken, and a word in between stays in its place exactly when it is
      no selector. */
  lemma KeptMeans(before: seq<Word>, w: Word, after: seq<Word>)
    requires AllTokens(before + [w] + after)
    ensures Kept(before + [w] + after) ==
              Kept(before) + (if w.option == "team" && !("---" <= w.tokens[0]) then [] else [w]) + Kept(after)
    ensures (forall x <- before + [w] + after :: x.option == "team" ==> "---" <= x.tokens[0]) ==>
              TeamOf(before + [w] + after) == Taken(None, Tokens(before + [w] + after))
  {
    var words := before + [w] + after;
    assert w == words[|before|];
    KeptJoins(before + [w], after);
    KeptAppends(before, w);
    if forall x <- words :: x.option == "team" ==> "---" <= x.tokens[0] {
      NoneSelects(words);
    }
  }

  lemma {:induction false} KeptJoins(a: seq<Word>, b: seq<Word>)
    ensures Kept(a + b) == Kept(a) + Kept(b)
  {
    hide Selects;
    if a == [] {
      assert a + b == b;
    } else {
      assert (a + b)[1..] == a[1..] + b;
      KeptJoins(a[1..], b);
    }
  }

  /** A three-dash selector that took the next token with it. */
  predicate TookValue(w: Word) {
    w.option == TEAM && !Selects(w) && |w.tokens| == 2
  }

  lemma ShortName(own: Flags, token: string)
    requires WellFormed(own) && |token| > 1 && token[0] == '-' && token[1..2] in own
    ensures FlagName(token[..2]) == token[1..2] && !Assigned(token[..2]) && token[..2] != "--"
  {
    var name := token[1..2];
    assert token[..2][1..] == name && name[1..] == [];
    assert TrimDashes(name) == name;
    assert BeforeEquals(name) == [name[0]] + BeforeEquals(name[1..]);
  }

  lemma SameClass(own: Flags, token: string)
    requires TEAM !in own && (FlagName(token) == TEAM ==> "---" <= token)
    ensures Attached(own[TEAM := false], token) <==> Attached(own, token)
    ensures FlagName(token) != TEAM ==> (LooksAhead(own[TEAM := false], token) <==> LooksAhead(own, token))
    ensures FlagName(token) == TEAM ==> !LooksAhead(own, token)
  {
    hide FlagName, LooksLikeName;
  }

  /** A kept word is read again as it was, unless it is a three-dash selector with a value. A word
      short of a value stays last. */
  lemma FirstAgain(own: Flags, arguments: seq<string>, ended: bool, more: seq<string>)
    requires WellFormed(own) && TEAM !in own && arguments != []
    requires var (w, used) := First(own[TEAM := false], arguments, ended);
             !Selects(w) && !TookValue(w) && (used == |arguments| ==> more == [])
    ensures var w := First(own[TEAM := false], arguments, ended).0;
            First(own, w.tokens + more, ended) == (w, |w.tokens|)
  {
    hide FlagName, Attached, LooksAhead;
    var token, full := arguments[0], own[TEAM := false];
    var w := First(full, arguments, ended).0;
    var again := w.tokens + more;
    assert again[0] == w.tokens[0];
    if !ended && token != "--" && IsOption(token) {
      if Attached(full, token) {
        AttachedParts(own, token);
        assert again[1] == token[2..];
      } else {
        SameClass(own, token);
        if |w.tokens| == 2 {
          assert again[1] == arguments[1];
        }
      }
    }
  }

  lemma AttachedParts(own: Flags, token: string)
    requires WellFormed(own) && Attached(own[TEAM := false], token)
    ensures var t := token[..2];
            IsOption(t) && t != "--" && FlagName(t) == token[1..2] && LooksAhead(own, t) && !Attached(own, t)
  {
    ShortName(own, token);
  }

  lemma TookValueIsLost(own: Flags, arguments: seq<string>, ended: bool, more: seq<string>)
    requires TEAM !in own && arguments != []
    requires TookValue(First(own[TEAM := false], arguments, ended).0)
    ensures var w := First(own[TEAM := false], arguments, ended).0; First(own, w.tokens + more, ended).0 != w
  {
    hide FlagName, LooksAhead;
    var token := arguments[0];
    var w := First(own[TEAM := false], arguments, ended).0;
    assert (w.tokens + more)[0] == w.tokens[0];
    if !ended && token != "--" && IsOption(token) && !Attached(own[TEAM := false], token) {
      SameClass(own, token);
    }
  }

  lemma ScanAgain(flags: Flags, w: Word, more: seq<string>, ended: bool)
    requires w.tokens != [] && First(flags, w.tokens + more, ended) == (w, |w.tokens|)
    ensures Scan(flags, w.tokens + more, ended) == [w] + Scan(flags, more, ended || w.terminator)
  {
    hide First;
    assert (w.tokens + more)[|w.tokens|..] == more;
  }

  lemma KeptFirst(w: Word, rest: seq<Word>)
    ensures Kept([w] + rest) == if Selects(w) then Kept(rest) else [w] + Kept(rest)
    ensures Tokens([w] + rest) == w.tokens + Tokens(rest)
  {
    assert ([w] + rest)[1..] == rest;
  }

  /** Taking the selector out and scanning what is left with the command's own options gives the
      words without the selector, whatever values are attached, looked ahead for or after the
      terminator, exactly when no three-dash selector took a value with it. */
  lemma {:induction false} TakingOutCommutes(own: Flags, arguments: seq<string>, ended: bool)
    requires WellFormed(own) && TEAM !in own
    ensures var kept := Kept(Scan(own[TEAM := false], arguments, ended));
            Scan(own, Tokens(kept), ended) == kept <==> forall w <- kept :: !TookValue(w)
    decreases |arguments|
  {
    hide First, Kept, Tokens, TookValue, WellFormed;
    var full := own[TEAM := false];
    if arguments == [] {
      assert Kept([]) == [] && Tokens([]) == [] by {
        NothingKept();
      }
    } else {
      var (w, used) := First(full, arguments, ended);
      var rest := Scan(full, arguments[used..], ended || w.terminator);
      var kept := Kept(rest);
      var more := Tokens(kept);
      FirstHasTokens(full, arguments, ended);
      TakingOutCommutes(own, arguments[used..], ended || w.terminator);
      KeptFirst(w, rest);
      if !Selects(w) {
        KeptFirst(w, kept);
        if TookValue(w) {
          TookValueIsLost(own, arguments, ended, more);
          assert ([w] + kept)[0] == w;
        } else {
          NothingKept();
          FirstAgain(own, arguments, ended, more);
          ScanAgain(own, w, more, ended);
          Prepended(w, Scan(own, more, ended || w.terminator), kept);
        }
      }
    }
  }

  lemma NothingKept()
    ensures Kept([]) == [] && Tokens([]) == []
  {
  }

  lemma FirstHasTokens(flags: Flags, arguments: seq<string>, ended: bool)
    requires arguments != []
    ensures var w := First(flags, arguments, ended).0; w.tokens != [] && (Selects(w) ==> !w.terminator)
  {
    hide FlagName, Attached, LooksAhead;
  }

  lemma Prepended(w: Word, a: seq<Word>, b: seq<Word>)
    ensures [w] + a == [w] + b <==> a == b
  {
    if [w] + a == [w] + b {
      assert a == ([w] + a)[1..] == ([w] + b)[1..] == b;
    }
  }
}
