/**
  repl.go: the line-oriented client. A line is lower-cased and split into
  whitespace-separated words (`cleanInput`); a blank line is skipped, and
  otherwise the first word names a command from the table and the rest are
  its arguments.
*/
module Repl {
  import opened Wrappers
  import opened GameKinds
  import opened Messages
  import Commands

  /** `unicode.IsSpace`, the separator test of `strings.Fields`. */
  predicate IsSpace(c: char) {
    c == ' ' || c == '\t' || c == '\n' || c == '\U{0b}' || c == '\U{0c}' || c == '\r' ||
    c == '\U{85}' || c == '\U{a0}' || c == '\U{1680}' || ('\U{2000}' <= c <= '\U{200a}') ||
    c == '\U{2028}' || c == '\U{2029}' || c == '\U{202f}' || c == '\U{205f}' || c == '\U{3000}'
  }

  predicate IsUpper(c: char) {
    'A' <= c <= 'Z'
  }

  /** The lower-case form of an ASCII letter; every other character is kept. */
  function LowerChar(c: char): (l: char)
    ensures !IsUpper(l)
    ensures IsSpace(l) <==> IsSpace(c)
    ensures !IsUpper(c) ==> l == c
    ensures IsUpper(c) ==> l as int - c as int == 32
  {
    if IsUpper(c) then (c as int + 32) as char else c
  }

  /** `strings.ToLower`, on ASCII letters. */
  function ToLower(s: string): (r: string)
    ensures |r| == |s|
    ensures forall i :: 0 <= i < |s| ==> r[i] == LowerChar(s[i])
  {
    seq(|s|, i requires 0 <= i < |s| => LowerChar(s[i]))
  }

  predicate NoSpace(s: string) {
    forall i :: 0 <= i < |s| ==> !IsSpace(s[i])
  }

  predicate AllSpace(s: string) {
    forall i :: 0 <= i < |s| ==> IsSpace(s[i])
  }

  predicate NoUpper(s: string) {
    forall i :: 0 <= i < |s| ==> !IsUpper(s[i])
  }

  /** A word as `strings.Fields` returns it: non-empty and without a separator. */
  predicate IsWord(w: string) {
    |w| > 0 && NoSpace(w)
  }

  /** The length of the run of non-separators that starts `s`. */
  function WordEnd(s: string): (n: nat)
    ensures n <= |s|
    ensures NoSpace(s[..n])
    ensures n < |s| ==> IsSpace(s[n])
  {
    if s == [] || IsSpace(s[0]) then 0
    else
      var n := WordEnd(s[1..]);
      assert s[..n + 1] == [s[0]] + s[1..][..n];
      1 + n
  }

  /** `strings.Fields`: the maximal runs of non-separators of `s`, in order. */
  function Fields(s: string): (r: seq<string>)
    ensures forall k :: 0 <= k < |r| ==> IsWord(r[k])
    ensures r == [] <==> AllSpace(s)
    decreases |s|
  {
    if s == [] then []
    else if IsSpace(s[0]) then
      var r := Fields(s[1..]);
      assert AllSpace(s) <==> AllSpace(s[1..]) by {
        if AllSpace(s[1..]) {
          forall i | 0 <= i < |s| ensures IsSpace(s[i]) {
            if i > 0 { assert s[i] == s[1..][i - 1]; }
          }
        }
      }
      r
    else
      var n := WordEnd(s);
      [s[..n]] + Fields(s[n..])
  }

  /** The characters of `s` other than separators, in order. */
  function Unspaced(s: string): string {
    if s == [] then []
    else (if IsSpace(s[0]) then [] else [s[0]]) + Unspaced(s[1..])
  }

  /** The words run together. */
  function Concat(words: seq<string>): string {
    if words == [] then [] else words[0] + Concat(words[1..])
  }

  /** The words joined by single spaces. */
  function JoinWords(words: seq<string>): string {
    if words == [] then []
    else if |words| == 1 then words[0]
    else words[0] + " " + JoinWords(words[1..])
  }

  lemma {:induction false} UnspacedAppend(a: string, b: string)
    ensures Unspaced(a + b) == Unspaced(a) + Unspaced(b)
    decreases |a|
  {
    if a == [] {
      assert a + b == b;
    } else {
      assert (a + b)[0] == a[0];
      assert (a + b)[1..] == a[1..] + b;
      UnspacedAppend(a[1..], b);
    }
  }

  lemma {:induction false} UnspacedOfWord(w: string)
    requires NoSpace(w)
    ensures Unspaced(w) == w
    decreases |w|
  {
    if w != [] {
      assert NoSpace(w[1..]) by {
        forall i | 0 <= i < |w[1..]| ensures !IsSpace(w[1..][i]) {
          assert w[1..][i] == w[i + 1];
        }
      }
      UnspacedOfWord(w[1..]);
    }
  }

  /** No character is lost or reordered: the words hold exactly the non-separators of the line. */
  lemma {:induction false} FieldsKeepText(s: string)
    ensures Concat(Fields(s)) == Unspaced(s)
    decreases |s|
  {
    if s == [] {
    } else if IsSpace(s[0]) {
      FieldsKeepText(s[1..]);
    } else {
      var n := WordEnd(s);
      assert s == s[..n] + s[n..];
      FieldsKeepText(s[n..]);
      UnspacedOfWord(s[..n]);
      UnspacedAppend(s[..n], s[n..]);
      assert Fields(s) == [s[..n]] + Fields(s[n..]);
      assert Fields(s)[1..] == Fields(s[n..]);
    }
  }

  /** The first separator ends the word that starts a line. */
  lemma {:induction false} WordEndAt(w: string, rest: string)
    requires NoSpace(w) && (rest == [] || IsSpace(rest[0]))
    ensures WordEnd(w + rest) == |w|
    decreases |w|
  {
    if w == [] {
      assert w + rest == rest;
    } else {
      assert (w + rest)[1..] == w[1..] + rest;
      assert NoSpace(w[1..]) by {
        forall i | 0 <= i < |w[1..]| ensures !IsSpace(w[1..][i]) {
          assert w[1..][i] == w[i + 1];
        }
      }
      WordEndAt(w[1..], rest);
    }
  }

  /** Joining words with single spaces and splitting the result gives the same words back. */
  lemma {:induction false} FieldsOfJoinWords(words: seq<string>)
    requires forall k :: 0 <= k < |words| ==> IsWord(words[k])
    ensures Fields(JoinWords(words)) == words
    decreases |words|
  {
    if words == [] {
    } else {
      var w := words[0];
      var rest := if |words| == 1 then [] else " " + JoinWords(words[1..]);
      assert JoinWords(words) == w + rest;
      WordEndAt(w, rest);
      assert (w + rest)[..|w|] == w;
      assert (w + rest)[|w|..] == rest;
      assert Fields(w + rest) == [w] + Fields(rest);
      if |words| > 1 {
        assert rest[1..] == JoinWords(words[1..]);
        FieldsOfJoinWords(words[1..]);
      }
    }
  }

  /** Every word of a line without upper-case letters is without them too. */
  lemma {:induction false} FieldsKeepLower(s: string)
    requires NoUpper(s)
    ensures forall k :: 0 <= k < |Fields(s)| ==> NoUpper(Fields(s)[k])
    decreases |s|
  {
    if s == [] {
    } else if IsSpace(s[0]) {
      assert NoUpper(s[1..]) by {
        forall i | 0 <= i < |s[1..]| ensures !IsUpper(s[1..][i]) {
          assert s[1..][i] == s[i + 1];
        }
      }
      FieldsKeepLower(s[1..]);
    } else {
      var n := WordEnd(s);
      assert NoUpper(s[n..]) by {
        forall i | 0 <= i < |s[n..]| ensures !IsUpper(s[n..][i]) {
          assert s[n..][i] == s[n + i];
        }
      }
      FieldsKeepLower(s[n..]);
      assert Fields(s) == [s[..n]] + Fields(s[n..]);
    }
  }

  /** `cleanInput`: the line lower-cased and split into words. */
  function CleanInput(text: string): (words: seq<string>)
    ensures forall k :: 0 <= k < |words| ==> IsWord(words[k]) && NoUpper(words[k])
    ensures words == [] <==> AllSpace(text)
  {
    var lower := ToLower(text);
    FieldsKeepLower(lower);
    assert AllSpace(lower) <==> AllSpace(text);
    Fields(lower)
  }

  /** What a lower-case line, cleaned, tells apart: the words that were typed, in order. */
  lemma CleanInputOfWords(words: seq<string>)
    requires forall k :: 0 <= k < |words| ==> IsWord(words[k]) && NoUpper(words[k])
    ensures CleanInput(JoinWords(words)) == words
  {
    var text := JoinWords(words);
    assert NoUpper(text) by { JoinKeepsLower(words); }
    assert ToLower(text) == text;
    FieldsOfJoinWords(words);
  }

  lemma {:induction false} JoinKeepsLower(words: seq<string>)
    requires forall k :: 0 <= k < |words| ==> NoUpper(words[k])
    ensures NoUpper(JoinWords(words))
    decreases |words|
  {
    if |words| > 1 {
      JoinKeepsLower(words[1..]);
      var j := JoinWords(words[1..]);
      assert JoinWords(words) == words[0] + " " + j;
      forall i | 0 <= i < |JoinWords(words)| ensures !IsUpper(JoinWords(words)[i]) {
        if i < |words[0]| {
        } else if i > |words[0]| {
          assert JoinWords(words)[i] == j[i - |words[0]| - 1];
        }
      }
    }
  }

  /** What one line of input leads to, up to the message it builds. */
  datatype ReplStep =
    | Skip                                          // a blank line
    | InvalidCommand(name: string)                  // not in the command table
    | RunBasic(name: string, args: seq<string>)     // help or exit: its callback runs
    | BuildFailed(err: string)                      // the command refused its arguments
    | SendMessage(msg: ClientMessage)               // the message for the server

  const InvalidCommandText := "Invalid command, enter 'help' to see a list of commands."

  /**
    One pass of `startRepl`'s loop: clean the line, look its first word up,
    and run a basic command or build a game command's message from the rest.
  */
  function ReadLine(text: string, gameType: GameType): (step: ReplStep)
    ensures step.Skip? <==> AllSpace(text)
    ensures step.InvalidCommand? ==> step.name == CleanInput(text)[0] && step.name !in Commands.GetCommands()
    ensures step.RunBasic? ==> [step.name] + step.args == CleanInput(text) && step.name in {"help", "exit"}
    ensures !AllSpace(text) && CleanInput(text)[0] !in Commands.GetCommands() ==>
      step == InvalidCommand(CleanInput(text)[0])
    ensures !AllSpace(text) && CleanInput(text)[0] in {"help", "exit"} ==>
      step == RunBasic(CleanInput(text)[0], CleanInput(text)[1..])
    ensures !AllSpace(text) && CleanInput(text)[0] in Commands.GetCommands() ==>
      var words := CleanInput(text);
      var cmd := Commands.GetCommands()[words[0]];
      cmd.GameCommand? ==>
        match Commands.CreatePlayerMessage(cmd.kind, gameType, words[1..])
        case Success(msg) => step == SendMessage(msg)
        case Failure(e) => step == BuildFailed(e)
  {
    var input := CleanInput(text);
    if |input| == 0 then Skip
    else
      var commandName := input[0];
      var commandArgs := input[1..];
      if commandName !in Commands.GetCommands() then InvalidCommand(commandName)
      else
        match Commands.GetCommands()[commandName]
        case BasicCommand(_, _) => RunBasic(commandName, commandArgs)
        case GameCommand(kind, _, _) =>
          match Commands.CreatePlayerMessage(kind, gameType, commandArgs)
          case Success(msg) => SendMessage(msg)
          case Failure(e) => BuildFailed(e)
  }

  /**
    Room codes are lower-cased on the way in: `join <code>` asks for the
    code's lower-case form.
  */
  lemma JoinLowersCode(code: string, gameType: GameType)
    requires IsWord(code)
    ensures ReadLine("join " + code, gameType) == SendMessage(ClientMessageOf(ClientJoinRoom).(roomCode := ToLower(code)))
  {
    var text := "join " + code;
    var lower := ToLower(text);
    assert lower == "join " + ToLower(code);
    assert IsWord(ToLower(code)) by {
      forall i | 0 <= i < |code| ensures !IsSpace(ToLower(code)[i]) {
        assert !IsSpace(code[i]);
      }
    }
    WordEndAt("join", " " + ToLower(code));
    assert lower == "join" + (" " + ToLower(code));
    assert lower[4..] == " " + ToLower(code);
    assert lower[..4] == "join";
    assert lower[5..] == ToLower(code);
    FieldsOfJoinWords([ToLower(code)]);
    assert Fields(lower) == ["join"] + Fields(lower[4..]);
    assert Fields(lower[4..]) == Fields(lower[5..]);
  }
}
