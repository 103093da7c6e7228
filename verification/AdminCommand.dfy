// src/shared/s5admin_parser.c: cutting a command line in place with strtok_r, and recognising the
// command.
module AdminCommand {
  import opened Bytes

  predicate IsSeparator(c: char) { c in {' ', '\r', '\n'} }

  /** What a C string function sees of a character array. */
  function CString(a: seq<char>): string {
    if a == [] || a[0] == '\0' then [] else [a[0]] + CString(a[1..])
  }

  // ---- Tokens ----

  function Skip(s: string): (r: string)
    ensures |r| <= |s| && (r != [] ==> !IsSeparator(r[0]))
  {
    if s != [] && IsSeparator(s[0]) then Skip(s[1..]) else s
  }

  function Word(s: string): (r: string)
    ensures |r| <= |s| && r == s[..|r|] && (s != [] && !IsSeparator(s[0]) ==> r != [])
  {
    if s == [] || IsSeparator(s[0]) then [] else [s[0]] + Word(s[1..])
  }

  function Tokens(s: string): seq<string>
    decreases |s|
  {
    var r := Skip(s);
    if r == [] then [] else [Word(r)] + Tokens(r[|Word(r)|..])
  }

  lemma {:induction false} SeparatorFirst(s: string)
    requires s != [] && IsSeparator(s[0])
    ensures Tokens(s) == Tokens(s[1..])
  {
  }

  /** The line under strtok_r: tokens are cut off by overwriting the separator after them. */
  class Line {
    const text: array<char>
    var save: nat

    ghost predicate Valid()
      reads this, text
    {
      save < text.Length && text[text.Length - 1] == '\0'
    }

    ghost function Rest(): string
      reads this, text
      requires Valid()
    {
      CString(text[save..])
    }

    constructor (text: array<char>)
      requires text.Length > 0 && text[text.Length - 1] == '\0'
      ensures Valid() && this.text == text && Rest() == CString(text[..])
    {
      this.text, save := text, 0;
      new;
      assert text[0..] == text[..];
    }

    /** strspn */
    method SkipSeparators() returns (start: nat)
      requires Valid()
      ensures start < text.Length && CString(text[start..]) == Skip(Rest())
    {
      start := save;
      while IsSeparator(text[start])
        invariant start < text.Length && Skip(CString(text[start..])) == Skip(Rest())
        decreases text.Length - start
      {
        assert text[start..][1..] == text[start + 1..];
        start := start + 1;
      }
    }

    /** strcspn */
    method EndOfWord(start: nat) returns (end: nat)
      requires Valid() && start < text.Length
      ensures start <= end < text.Length && WordEnds(text[start..], end - start)
    {
      end := start;
      while text[end] != '\0' && !IsSeparator(text[end])
        invariant start <= end < text.Length
        invariant forall j :: start <= j < end ==> text[j] != '\0' && !IsSeparator(text[j])
        decreases text.Length - end
      {
        end := end + 1;
      }
    }

    /** Ends the word where it stands, and moves on. */
    method Cut(at: nat, end: nat)
      requires Valid() && at <= end < text.Length && WordEnds(text[at..], end - at)
      modifies this, text
      ensures Valid() && CString(text[at..]) == old(text[at..end])
      ensures Rest() == if old(text[end]) == '\0' then [] else old(CString(text[end + 1..]))
    {
      hide CString;
      ghost var word, rest := text[at..end], text[end + 1..];
      assert text[at..][..end - at] == word && text[at..][end - at] == text[end];
      CutIs(word, rest);
      if text[end] == '\0' {
        EmptyIsEmpty(text[end..]);
        save := end;
      } else {
        text[end] := '\0';
        save := end + 1;
      }
      assert text[at..] == word + ['\0'] + rest && text[end + 1..] == rest;
    }

    /** One call of strtok_r: the next token, and where it now stands in the line as a C string. */
    method NextToken() returns (token: Option<string>, at: nat)
      requires Valid()
      modifies this, text
      ensures Valid()
      ensures var ts := Tokens(old(Rest()));
        if ts == [] then token == None && Tokens(Rest()) == []
        else token == Some(ts[0]) && Tokens(Rest()) == ts[1..]
      ensures token.Some? ==> at < text.Length && CString(text[at..]) == token.value
    {
      hide CString, Skip, Word, WordEnds;
      at := SkipSeparators();
      TokensFrom(Rest(), text[at..]);
      if text[at] == '\0' {
        save := at;
        TokensFrom(Rest(), text[at..]);
        return None, at;
      }
      var end := EndOfWord(at);
      TokensCut(text[at..], end - at);
      assert text[at..][..end - at] == text[at..end] && text[at..][end - at + 1..] == text[end + 1..];
      token := Some(text[at..end]);
      Cut(at, end);
    }
  }

  lemma {:induction false} TokensFrom(s: string, a: seq<char>)
    requires a != [] && CString(a) == Skip(s)
    ensures a[0] == '\0' ==> Tokens(s) == []
    ensures a[0] != '\0' ==> !IsSeparator(a[0]) && Tokens(s) == Tokens(CString(a)) && Tokens(s) != []
  {
  }

  lemma {:induction false} TokensCut(a: seq<char>, n: nat)
    requires WordEnds(a, n) && !IsSeparator(a[0]) && a[0] != '\0'
    ensures Tokens(CString(a)) == [a[..n]] + Tokens(if a[n] == '\0' then [] else CString(a[n + 1..]))
  {
    WordIs(a, n);
    var s := CString(a);
    assert a[n..][1..] == a[n + 1..];
    if a[n] != '\0' {
      SeparatorFirst(CString(a[n..]));
    }
  }

  /** The first separator or NUL is at n. */
  predicate WordEnds(a: seq<char>, n: nat) {
    && n < |a| && (a[n] == '\0' || IsSeparator(a[n]))
    && (forall j :: 0 <= j < n ==> a[j] != '\0' && !IsSeparator(a[j]))
  }

  lemma {:induction false} WordIs(a: seq<char>, n: nat)
    requires WordEnds(a, n)
    ensures n <= |CString(a)| && Word(CString(a)) == a[..n] && CString(a)[n..] == CString(a[n..])
    decreases n
  {
    if n > 0 {
      assert a[1..][n - 1..] == a[n..] && [a[0]] + a[1..][..n - 1] == a[..n];
      assert forall j :: 0 <= j < n - 1 ==> a[1..][j] == a[j + 1];
      hide IsSeparator;
      WordIs(a[1..], n - 1);
    }
  }

  lemma {:induction false} EmptyIsEmpty(a: seq<char>)
    requires a != [] && a[0] == '\0'
    ensures CString(a) == []
  {
  }

  lemma {:induction false} CutIs(word: string, rest: seq<char>)
    requires '\0' !in word
    ensures CString(word + ['\0'] + rest) == word
  {
    if word != [] {
      CutIs(word[1..], rest);
      assert (word + ['\0'] + rest)[1..] == word[1..] + ['\0'] + rest;
    }
  }

  // ---- Commands ----

  const ARGS_LEN := 256

  /** The table of commands: their names and how many arguments they take. */
  const COMMANDS: seq<(string, nat)> := [
    ("ADD_USER", 2), ("REMOVE_USER", 1), ("LIST_USERS", 0), ("GET_METRICS", 0), ("GET_ACCESS_REGISTER", 0),
    ("SET_LOGLEVEL", 1), ("SET_MAX_CONN", 1), ("SET_BUFF", 1), ("GET_CONFIG", 0), ("HELP", 0), ("PING", 0), ("EXIT", 0)]

  const CMD_INVALID := 12

  /** Which command a token names, or CMD_INVALID. */
  function IndexFrom(token: string, i: nat): (k: nat)
    requires i <= |COMMANDS|
    ensures i <= k <= CMD_INVALID
    ensures k < CMD_INVALID ==> COMMANDS[k].0 == token
    ensures forall j :: i <= j < k ==> COMMANDS[j].0 != token
    decreases |COMMANDS| - i
  {
    if i == |COMMANDS| || COMMANDS[i].0 == token then i else IndexFrom(token, i + 1)
  }

  const INVALID_COMMAND := "invalid command"
  const MISSING := "missing argument"
  const TOO_MANY := "too many arguments"
  const TOO_LONG := "argument too long"

  /** The arguments that a command of that arity takes from the tokens, or a complaint. */
  datatype Outcome = Taken(args: seq<string>) | Complaint(message: string)

  function Take(tokens: seq<string>, arity: nat): Outcome
    decreases arity
  {
    if arity == 0 then if tokens == [] then Taken([]) else Complaint(TOO_MANY)
    else if tokens == [] then Complaint(MISSING)
    else if |tokens[0]| > ARGS_LEN then Complaint(TOO_LONG)
    else match Take(tokens[1..], arity - 1)
      case Taken(args) => Taken([tokens[0]] + args)
      case Complaint(m) => Complaint(m)
  }

  /** `strncpy(arg, token, ARGS_LEN)`: filled up with NULs, and without one if the token has 256. */
  function Padded(token: string): seq<char>
    requires |token| <= ARGS_LEN
  {
    token + seq(ARGS_LEN - |token|, _ => '\0')
  }

  class ParsedCommand {
    var cmd: nat
    const arg1: array<char>
    const arg2: array<char>

    ghost predicate Valid()
      reads this
    {
      arg1 != arg2 && arg1.Length == ARGS_LEN == arg2.Length
    }

    constructor ()
      ensures Valid() && fresh(arg1) && fresh(arg2)
    {
      cmd := CMD_INVALID;
      arg1 := new char[ARGS_LEN];
      arg2 := new char[ARGS_LEN];
    }
  }

  /** `strcpy` and `strncpy` into an argument, for a string that fits. */
  method Store(arg: array<char>, s: seq<char>)
    requires |s| <= arg.Length
    modifies arg
    ensures arg[..] == s + old(arg[|s|..])
  {
    forall i | 0 <= i < |s| {
      arg[i] := s[i];
    }
  }

  /** What the fields say after a line with these tokens. */
  ghost predicate Says(p: ParsedCommand, tokens: seq<string>)
    requires tokens != [] && p.Valid()
    reads p, p.arg1, p.arg2
  {
    var k := IndexFrom(tokens[0], 0);
    if k == CMD_INVALID then p.cmd == CMD_INVALID && CString(p.arg1[..]) == INVALID_COMMAND
    else SaysArgs(p, k, Take(tokens[1..], COMMANDS[k].1))
  }

  ghost predicate SaysArgs(p: ParsedCommand, k: nat, o: Outcome)
    requires p.Valid()
    reads p, p.arg1, p.arg2
  {
    match o
    case Complaint(m) => p.cmd == CMD_INVALID && CString(p.arg1[..]) == m
    case Taken(args) =>
      && p.cmd == k
      && (|args| >= 1 ==> |args[0]| <= ARGS_LEN && p.arg1[..] == Padded(args[0]))
      && (|args| >= 2 ==> |args[1]| <= ARGS_LEN && p.arg2[..] == Padded(args[1]))
  }

  /** The complaint is stored in place of the first argument. */
  method Complain(p: ParsedCommand, message: string)
    requires p.Valid() && |message| < ARGS_LEN && '\0' !in message
    modifies p, p.arg1
    ensures p.Valid() && p.cmd == CMD_INVALID && CString(p.arg1[..]) == message
  {
    p.cmd := CMD_INVALID;
    CutIs(message, p.arg1[|message| + 1..]);
    Store(p.arg1, message + ['\0']);
  }

  /** One argument: its token, or what is wrong with the line. */
  method TakeArgument(p: ParsedCommand, line: Line, arg: array<char>) returns (complaint: Option<string>)
    requires p.Valid() && line.Valid() && arg.Length == ARGS_LEN && arg != line.text
    modifies line, line.text, arg
    ensures line.Valid()
    ensures var ts := Tokens(old(line.Rest()));
      && complaint == (if ts == [] then Some(MISSING) else if |ts[0]| > ARGS_LEN then Some(TOO_LONG) else None)
      && (complaint == None ==> arg[..] == Padded(ts[0]) && Tokens(line.Rest()) == ts[1..])
  {
    var token, at := line.NextToken();
    if token.None? {
      return Some(MISSING);
    }
    if |token.value| > ARGS_LEN {
      var more;
      more, at := line.NextToken();
      while more.Some?
        invariant line.Valid() && (more.None? ==> Tokens(line.Rest()) == [])
        decreases |Tokens(line.Rest())|, if more.Some? then 1 else 0
      {
        more, at := line.NextToken();
      }
      return Some(TOO_LONG);
    }
    Store(arg, Padded(token.value));
    return None;
  }

  /** `s5admin_parse_command_args` */
  method ParseArgs(p: ParsedCommand, line: Line, k: nat, arity: nat)
    requires p.Valid() && line.Valid() && p.arg1 != line.text && p.arg2 != line.text && arity <= 2
    modifies p, p.arg1, p.arg2, line, line.text
    ensures p.Valid() && line.Valid()
    ensures SaysArgs(p, k, Take(Tokens(old(line.Rest())), arity))
  {
    hide Tokens, CString, Padded;
    var complaint := None;
    p.cmd := k;
    if arity >= 1 {
      complaint := TakeArgument(p, line, p.arg1);
    }
    if complaint.None? && arity == 2 {
      complaint := TakeArgument(p, line, p.arg2);
    }
    if complaint.None? {
      var more, at := line.NextToken();
      if more.Some? {
        complaint := Some(TOO_MANY);
      }
    }
    if complaint.Some? {
      Complain(p, complaint.value);
    }
  }

  /** The first command of that name. */
  method FindCommand(token: string) returns (i: nat)
    ensures i == IndexFrom(token, 0) && i <= |COMMANDS| == CMD_INVALID
  {
    i := 0;
    while i < |COMMANDS| && token != COMMANDS[i].0
      invariant 0 <= i <= |COMMANDS| && forall j :: 0 <= j < i ==> COMMANDS[j].0 != token
    {
      i := i + 1;
    }
  }

  /** `s5admin_parse_command`. A line of separators only has no first token, and the comparison with the
      first command is then given a null pointer: the result is false, and nothing more is modelled. */
  method ParseCommand(p: ParsedCommand, line: Line) returns (ok: bool)
    requires p.Valid() && line.Valid() && p.arg1 != line.text && p.arg2 != line.text
    modifies p, p.arg1, p.arg2, line, line.text
    ensures p.Valid() && line.Valid() && ok == !IsGap(old(line.Rest()))
    ensures ok ==> Tokens(old(line.Rest())) != [] && Says(p, Tokens(old(line.Rest())))
  {
    BlankExactly(line.Rest());
    hide Tokens, Take, IsGap, CString, SaysArgs, IndexFrom;
    Complain(p, INVALID_COMMAND);
    var token, at := line.NextToken();
    if token.None? {
      return false;
    }
    var i := FindCommand(token.value);
    if i < |COMMANDS| {
      ParseArgs(p, line, i, COMMANDS[i].1);
    }
    return true;
  }

  /** A line has no tokens if and only if it consists of separators. */
  lemma {:induction false} BlankExactly(s: string)
    ensures Tokens(s) == [] <==> IsGap(s)
  {
    SkipExactly(s);
  }

  lemma {:induction false} SkipExactly(s: string)
    ensures Skip(s) == [] <==> IsGap(s)
  {
    if s != [] {
      SkipExactly(s[1..]);
    }
  }

  // ---- Which lines are commands ----

  lemma {:induction false} TakeExactly(tokens: seq<string>, arity: nat)
    ensures Take(tokens, arity).Taken? <==> |tokens| == arity && forall a :: a in tokens ==> |a| <= ARGS_LEN
    ensures Take(tokens, arity).Taken? ==> Take(tokens, arity).args == tokens
    decreases arity
  {
    if arity > 0 && tokens != [] {
      TakeExactly(tokens[1..], arity - 1);
      assert tokens == [tokens[0]] + tokens[1..];
    }
  }

  /** The number of a command in the enumeration; 12 is CMD_INVALID. */
  function NumberOf(name: string): nat {
    if name == "ADD_USER" then 0
    else if name == "REMOVE_USER" then 1
    else if name == "LIST_USERS" then 2
    else if name == "GET_METRICS" then 3
    else if name == "GET_ACCESS_REGISTER" then 4
    else if name == "SET_LOGLEVEL" then 5
    else if name == "SET_MAX_CONN" then 6
    else if name == "SET_BUFF" then 7
    else if name == "GET_CONFIG" then 8
    else if name == "HELP" then 9
    else if name == "PING" then 10
    else if name == "EXIT" then 11
    else 12
  }

  /** Adding a user takes a name and a password; removing one, and the settings, take one argument. */
  function ArgumentsOf(cmd: nat): nat { if cmd == 0 then 2 else if cmd in {1, 5, 6, 7} then 1 else 0 }

  lemma {:induction false} TableIs(name: string)
    ensures var k := IndexFrom(name, 0); k == NumberOf(name) && (k < 12 ==> COMMANDS[k].1 == ArgumentsOf(k))
  {
    if NumberOf(name) < 12 {
      NamesDiffer(NumberOf(name));
    }
  }

  /** A line that is not blank is a command if and only if its first token names one, the others are
      as many as it takes, and none of them is longer than 256 bytes. */
  lemma {:induction false} CommandIff(p: ParsedCommand, tokens: seq<string>)
    requires tokens != [] && p.Valid() && Says(p, tokens)
    ensures var k := NumberOf(tokens[0]);
      p.cmd == if k < 12 && |tokens| - 1 == ArgumentsOf(k) && (forall a :: a in tokens[1..] ==> |a| <= 256) then k else 12
  {
    TableIs(tokens[0]);
    var k := IndexFrom(tokens[0], 0);
    if k < CMD_INVALID {
      TakeExactly(tokens[1..], COMMANDS[k].1);
    }
  }

  /** What is wrong with the arguments of a command that takes `n`. */
  function WrongWith(args: seq<string>, n: nat): string {
    if (n >= 1 && |args| >= 1 && |args[0]| > 256) || (n >= 2 && |args| >= 2 && |args[1]| > 256) then "argument too long"
    else if |args| < n then "missing argument"
    else "too many arguments"
  }

  /** The answer to a line that is not a command says what is wrong with it. */
  lemma {:induction false} ComplaintIs(p: ParsedCommand, tokens: seq<string>)
    requires tokens != [] && p.Valid() && Says(p, tokens) && p.cmd == 12
    ensures var k := NumberOf(tokens[0]);
      CString(p.arg1[..]) == if k == 12 then "invalid command" else WrongWith(tokens[1..], ArgumentsOf(k))
  {
    hide CString, IndexFrom, NumberOf;
    TableIs(tokens[0]);
    var k := NumberOf(tokens[0]);
    if k < 12 {
      Complains(tokens[1..], ArgumentsOf(k));
    }
  }

  lemma {:induction false} Complains(args: seq<string>, n: nat)
    requires n <= 2
    ensures var o := Take(args, n); o.Complaint? ==> o.message == WrongWith(args, n)
  {
    if n > 0 && args != [] {
      Complains(args[1..], n - 1);
    }
  }

  lemma {:induction false} NamesDiffer(k: nat)
    requires k < CMD_INVALID
    ensures forall j :: 0 <= j < CMD_INVALID && j != k ==> COMMANDS[j].0 != COMMANDS[k].0
  {
  }

  // ---- Printing and parsing back ----

  /** No space, line end or NUL. */
  predicate IsWord(s: string) {
    s != [] && forall i :: 0 <= i < |s| ==> s[i] != ' ' && s[i] != '\r' && s[i] != '\n' && s[i] != '\0'
  }

  predicate IsGap(s: string) { forall i :: 0 <= i < |s| ==> s[i] == ' ' || s[i] == '\r' || s[i] == '\n' }

  predicate Printable(words: seq<string>, gaps: seq<string>) {
    && |gaps| == |words|
    && (forall i :: 0 <= i < |words| ==> IsWord(words[i]) && IsGap(gaps[i]))
    && (forall i :: 0 <= i < |words| - 1 ==> gaps[i] != [])
  }

  /** Every word with the separators after it. */
  function Print(words: seq<string>, gaps: seq<string>): string
    requires |gaps| == |words|
  {
    if words == [] then [] else words[0] + (gaps[0] + Print(words[1..], gaps[1..]))
  }

  lemma {:induction false} GapFirst(gap: string, s: string)
    requires IsGap(gap)
    ensures Tokens(gap + s) == Tokens(s)
  {
    if gap == [] {
      assert gap + s == s;
    } else {
      assert (gap + s)[1..] == gap[1..] + s;
      SeparatorFirst(gap + s);
      GapFirst(gap[1..], s);
    }
  }

  lemma {:induction false} WordFirst(w: string, s: string)
    requires IsWord(w) && (s != [] ==> IsSeparator(s[0]))
    ensures Tokens(w + s) == [w] + Tokens(s)
  {
    WordOf(w, s);
    assert (w + s)[|w|..] == s;
  }

  lemma {:induction false} WordOf(w: string, s: string)
    requires (forall i :: 0 <= i < |w| ==> !IsSeparator(w[i])) && (s != [] ==> IsSeparator(s[0]))
    ensures Word(w + s) == w
  {
    if w == [] {
      assert w + s == s;
    } else {
      assert (w + s)[1..] == w[1..] + s;
      WordOf(w[1..], s);
    }
  }

  lemma {:induction false} PrintParses(words: seq<string>, gaps: seq<string>)
    requires Printable(words, gaps)
    ensures Tokens(Print(words, gaps)) == words
  {
    if words != [] {
      var rest := gaps[0] + Print(words[1..], gaps[1..]);
      if |words| == 1 {
        assert Print(words[1..], gaps[1..]) == [] && rest == gaps[0];
      }
      PrintParses(words[1..], gaps[1..]);
      WordFirst(words[0], rest);
      GapFirst(gaps[0], Print(words[1..], gaps[1..]));
    }
  }

  /** A stored argument is read back as it was given if and only if a NUL fits behind it. */
  lemma {:induction false} StoredIntact(a: string)
    requires '\0' !in a && |a| <= 256
    ensures |Padded(a)| == 256 && ('\0' in Padded(a) <==> |a| < 256)
    ensures CString(Padded(a)) == a
  {
    if |a| < ARGS_LEN {
      var zeros := seq(ARGS_LEN - |a|, _ => '\0');
      assert zeros == ['\0'] + zeros[1..] && Padded(a) == a + ['\0'] + zeros[1..] && Padded(a)[|a|] == '\0';
      CutIs(a, zeros[1..]);
    } else {
      assert Padded(a) == a;
      NoNulIsAll(a);
    }
  }

  lemma {:induction false} NoNulIsAll(a: string)
    requires '\0' !in a
    ensures CString(a) == a
  {
    if a != [] {
      NoNulIsAll(a[1..]);
    }
  }

  /** Any command with as many arguments as it takes, of 1 to 255 bytes that are not separators,
      printed with any runs of spaces and line ends around and between them, parses back to the same
      command and the same arguments, NUL-terminated. */
  lemma {:induction false} PrintedCommandParses(p: ParsedCommand, k: nat, words: seq<string>, lead: string, gaps: seq<string>)
    requires words != [] && NumberOf(words[0]) == k < 12 && |words| == 1 + ArgumentsOf(k)
    requires Printable(words, gaps) && IsGap(lead) && forall i :: 1 <= i < |words| ==> |words[i]| < 256
    requires p.Valid() && Tokens(lead + Print(words, gaps)) != [] && Says(p, Tokens(lead + Print(words, gaps)))
    ensures p.cmd == k
    ensures |words| >= 2 ==> CString(p.arg1[..]) == words[1] && '\0' in p.arg1[..]
    ensures |words| >= 3 ==> CString(p.arg2[..]) == words[2] && '\0' in p.arg2[..]
  {
    hide Tokens, Padded, CString;
    GapFirst(lead, Print(words, gaps));
    PrintParses(words, gaps);
    TableIs(words[0]);
    TakeExactly(words[1..], COMMANDS[k].1);
    if |words| >= 2 {
      StoredIntact(words[1]);
    }
    if |words| >= 3 {
      StoredIntact(words[2]);
    }
  }
}
