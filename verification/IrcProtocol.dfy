/** src/irc_protocol.cpp: messages of the IRC protocol, section 2.3.1 of RFC 1459, and the lines a reply is cut into. */
module IrcProtocol {
  import opened Basics

  datatype Message = Message(prefix: string, command: string, params: seq<string>) {
    /** The parameter at an index, nothing past the last one. */
    function Param(index: nat): string {
      if index < |params| then params[index] else ""
    }
  }

  // ---------------------------------------------------------------- reading a message

  predicate IsEnd(c: char) {
    c == '\r' || c == '\n'
  }

  function WithoutEnds(line: string): string {
    if line != "" && IsEnd(line[|line| - 1]) then WithoutEnds(line[..|line| - 1]) else line
  }

  function SkipBlanks(line: string): (rest: string)
    ensures |rest| <= |line|
    ensures rest != "" ==> rest[0] != ' '
  {
    if line != "" && line[0] == ' ' then SkipBlanks(line[1..]) else line
  }

  function ToUpper(c: char): char {
    if 'a' <= c <= 'z' then c - ' ' else c
  }

  function Upper(name: string): (raised: string)
    ensures |raised| == |name|
  {
    if name == "" then "" else [ToUpper(name[0])] + Upper(name[1..])
  }

  /** A small letter becomes the large one at its place in the alphabet, and nothing else changes. */
  lemma UpperLetters(c: char)
    ensures if 'a' <= c <= 'z' then 'A' <= ToUpper(c) <= 'Z' && ToUpper(c) as int - 'A' as int == c as int - 'a' as int else ToUpper(c) == c
  {
  }

  function Params(line: string): seq<string>
    decreases |line|
  {
    var rest := SkipBlanks(line);
    if rest == "" then []
    else if rest[0] == ':' then [rest[1..]]
    else [rest[..FindChar(rest, ' ')]] + Params(rest[FindChar(rest, ' ')..])
  }

  /** What follows the prefix: the command and its parameters. */
  function Body(prefix: string, line: string): Option<Message> {
    var end := FindChar(line, ' ');
    if end == 0 then None else Some(Message(prefix, Upper(line[..end]), Params(line[end..])))
  }

  /** parse. */
  function Parse(line: string): Option<Message> {
    var rest := SkipBlanks(WithoutEnds(line));
    if rest != "" && rest[0] == ':' then
      var after := rest[1..];
      var end := FindChar(after, ' ');
      if end == 0 then None else Body(after[..end], SkipBlanks(after[end..]))
    else Body("", rest)
  }

  /** parse, eating the line up from the left. */
  method ParseLine(line: string) returns (message: Option<Message>)
    ensures message == Parse(line)
  {
    var view := line;
    while view != "" && IsEnd(view[|view| - 1])
      invariant WithoutEnds(view) == WithoutEnds(line)
      decreases |view|
    {
      view := view[..|view| - 1];
    }
    view := EatBlanks(view);
    var prefix := "";
    if view != "" && view[0] == ':' {
      view := view[1..];
      prefix, view := EatToken(view);
      view := EatBlanks(view);
      if prefix == "" {
        return None;
      }
    }
    var command;
    command, view := EatToken(view);
    if command == "" {
      return None;
    }
    ghost var all := view;
    var params := [];
    while true
      invariant params + Params(view) == Params(all)
      decreases |view|
    {
      view := EatBlanks(view);
      if view == "" {
        assert params == Params(all);
        break;
      }
      if view[0] == ':' {
        params := params + [view[1..]];
        assert params == Params(all);
        break;
      }
      var param;
      param, view := EatToken(view);
      params := params + [param];
    }
    message := Some(Message(prefix, Upper(command), params));
  }

  method EatBlanks(view: string) returns (rest: string)
    ensures rest == SkipBlanks(view)
    ensures SkipBlanks(rest) == rest
  {
    rest := view;
    while rest != "" && rest[0] == ' '
      invariant SkipBlanks(rest) == SkipBlanks(view)
      decreases |rest|
    {
      rest := rest[1..];
    }
  }

  /** take_until_space. */
  method EatToken(view: string) returns (token: string, rest: string)
    ensures token == view[..FindChar(view, ' ')] && rest == view[FindChar(view, ' ')..]
  {
    var end := 0;
    while end < |view| && view[end] != ' '
      invariant end <= FindChar(view, ' ')
    {
      end := end + 1;
    }
    token, rest := view[..end], view[end..];
  }

  // ---------------------------------------------------------------- writing one

  /** What may stand for a command or a parameter in the middle of a line. */
  predicate IsMiddle(word: string) {
    word != "" && word[0] != ':' && forall c | c in word :: c != ' ' && !IsEnd(c)
  }

  function Written(words: seq<string>, text: Option<string>): string {
    if words == [] then match text case Some(t) => " :" + t case None => ""
    else " " + words[0] + Written(words[1..], text)
  }

  /** command_line. */
  function CommandLine(command: string, params: seq<string>, text: Option<string>): string {
    command + Written(params, text) + "\r\n"
  }

  function WithText(params: seq<string>, text: Option<string>): seq<string> {
    match text case Some(t) => params + [t] case None => params
  }

  lemma BlankSkipped(text: string)
    requires text != "" && text[0] != ' '
    ensures SkipBlanks(" " + text) == text
  {
    assert (" " + text)[1..] == text;
    assert SkipBlanks(text) == text;
  }

  lemma ParamRead(word: string, rest: string)
    requires IsMiddle(word) && (rest == "" || rest[0] == ' ')
    ensures Params(" " + (word + rest)) == [word] + Params(rest)
  {
    hide SkipBlanks; hide FindChar;
    assert word[0] in word;
    BlankSkipped(word + rest);
    FoundAt(word, rest, ' ');
    assert (word + rest)[|word|..] == rest && (word + rest)[..|word|] == word;
  }

  lemma TextRead(text: string)
    ensures Params(" " + (":" + text)) == [text]
  {
    hide SkipBlanks; hide FindChar;
    BlankSkipped(":" + text);
    assert (":" + text)[1..] == text;
  }

  lemma {:induction false} ParamsRead(params: seq<string>, text: Option<string>)
    requires forall k | 0 <= k < |params| :: IsMiddle(params[k])
    ensures Params(Written(params, text)) == WithText(params, text)
  {
    hide Params; hide IsMiddle;
    if params == [] {
      if text.Some? {
        TextRead(text.value);
        assert " :" + text.value == " " + (":" + text.value);
      } else {
        NothingRead();
      }
    } else {
      StartsBlank(params[1..], text);
      ParamRead(params[0], Written(params[1..], text));
      assert " " + params[0] + Written(params[1..], text) == " " + (params[0] + Written(params[1..], text));
      ParamsRead(params[1..], text);
      assert params == [params[0]] + params[1..];
    }
  }

  lemma NothingRead()
    ensures Params("") == []
  {
  }

  lemma StartsBlank(params: seq<string>, text: Option<string>)
    ensures Written(params, text) == "" || Written(params, text)[0] == ' '
  {
  }

  lemma {:induction false} EndsWell(command: string, params: seq<string>, text: Option<string>)
    requires IsMiddle(command) && forall k | 0 <= k < |params| :: IsMiddle(params[k])
    requires text.Some? ==> forall c | c in text.value :: !IsEnd(c)
    ensures var line := command + Written(params, text); line != "" && !IsEnd(line[|line| - 1])
    decreases |params|
  {
    assert command[|command| - 1] in command;
    if params != [] {
      EndsWell(params[0], params[1..], text);
      var line, inner := command + Written(params, text), params[0] + Written(params[1..], text);
      assert line == command + " " + inner;
    } else {
      var line := command + Written(params, text);
      assert text.None? ==> line == command;
      assert text.Some? && text.value != "" ==> line[|line| - 1] == text.value[|text.value| - 1];
      assert text.Some? && text.value == "" ==> line[|line| - 1] == ':';
    }
  }

  lemma EndsDropped(line: string)
    requires line != "" && !IsEnd(line[|line| - 1])
    ensures WithoutEnds(line + "\r\n") == line
  {
    assert (line + "\r\n")[..|line| + 1] == line + "\r";
    assert (line + "\r")[..|line|] == line;
    assert WithoutEnds(line + "\r\n") == WithoutEnds(line + "\r") == WithoutEnds(line);
  }

  /** What is written is read back: the command upper-cased, and the text as the last parameter, empty or starting with a colon
      as it may be. */
  lemma MessageRoundTrip(command: string, params: seq<string>, text: Option<string>)
    requires IsMiddle(command) && forall k | 0 <= k < |params| :: IsMiddle(params[k])
    requires text.Some? ==> forall c | c in text.value :: !IsEnd(c)
    ensures Parse(CommandLine(command, params, text)) == Some(Message("", Upper(command), WithText(params, text)))
  {
    var line, rest := command + Written(params, text), Written(params, text);
    EndsWell(command, params, text);
    EndsDropped(line);
    assert CommandLine(command, params, text) == line + "\r\n";
    assert command[0] in command;
    assert SkipBlanks(line) == line;
    StartsBlank(params, text);
    FoundAt(command, rest, ' ');
    assert line[..|command|] == command && line[|command|..] == rest;
    ParamsRead(params, text);
  }

  /** command_line, parameter by parameter. */
  method WriteLine(command: string, params: seq<string>, text: Option<string>) returns (line: string)
    ensures line == CommandLine(command, params, text)
  {
    line := command;
    for k := 0 to |params|
      invariant line + Written(params[k..], text) == command + Written(params, text)
    {
      assert params[k..][1..] == params[k + 1..];
      line := line + " " + params[k];
    }
    assert params[|params|..] == [];
    if text.Some? {
      line := line + " :" + text.value;
    }
    line := line + "\r\n";
  }

  /** nick_of. */
  function NickOf(prefix: string): (nick: string)
    ensures nick <= prefix && '!' !in nick && '@' !in nick
  {
    prefix[..Min(FindChar(prefix, '!'), FindChar(prefix, '@'))]
  }
}
