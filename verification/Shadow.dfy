/** The password rewrite of `/etc/shadow` (`firstboot.rs`). */
module Shadow {
  import opened Wrappers
  import opened Text

  const USER: string := "ubuntu:"

  predicate IsUserLine(line: string) {
    USER <= line
  }

  function RewriteLine(line: string, hash: string, days: nat): string {
    if !IsUserLine(line) then line
    else
      var fields := Split(line, ':');
      if |fields| >= 9 then
        Join([fields[0], hash, Decimal(days), fields[3], fields[4], fields[5], fields[6], fields[7], fields[8]], ':')
      else
        "ubuntu:" + hash + ":" + Join(if |fields| >= 2 then fields[2..] else [], ':')
  }

  function DropReturn(line: string): string {
    if line != "" && line[|line| - 1] == '\r' then line[..|line| - 1] else line
  }

  /** `str::lines`: pieces ended by a line feed, each without its carriage
      return, and a last piece when it is not empty. */
  function Lines(s: string): (lines: seq<string>)
    decreases |s|
  {
    var k := IndexOf(s, '\n');
    if k < |s| then [DropReturn(s[..k])] + Lines(s[k + 1..])
    else if s == "" then [] else [s]
  }

  function RewriteLines(lines: seq<string>, hash: string, days: nat): (r: seq<string>)
    ensures |r| == |lines|
    ensures forall i :: 0 <= i < |lines| ==> r[i] == RewriteLine(lines[i], hash, days)
  {
    seq(|lines|, i requires 0 <= i < |lines| => RewriteLine(lines[i], hash, days))
  }

  predicate EndsInNewline(s: string) {
    s != "" && s[|s| - 1] == '\n'
  }

  datatype ShadowError = UserNotFound

  function RewriteShadow(contents: string, hash: string, days: nat): Result<string, ShadowError> {
    var lines := Lines(contents);
    var joined := Join(RewriteLines(lines, hash, days), '\n');
    if forall i :: 0 <= i < |lines| ==> !IsUserLine(lines[i]) then Failure(UserNotFound)
    else if EndsInNewline(contents) && !EndsInNewline(joined) then Success(joined + "\n")
    else Success(joined)
  }

  // ---- Files with line-feed line ends ----

  /** Every line ended by a line feed. */
  function Terminate(lines: seq<string>): string {
    if lines == [] then "" else lines[0] + ['\n'] + Terminate(lines[1..])
  }

  predicate IsLine(line: string) {
    '\n' !in line && (line == "" || line[|line| - 1] != '\r')
  }

  lemma {:induction false} LinesTerminate(lines: seq<string>)
    requires forall i :: 0 <= i < |lines| ==> IsLine(lines[i])
    ensures Lines(Terminate(lines)) == lines
  {
    if lines != [] {
      var s, rest := Terminate(lines), Terminate(lines[1..]);
      IndexOfAppend(lines[0], '\n', rest);
      assert s[..|lines[0]|] == lines[0] && s[|lines[0]| + 1..] == rest;
      LinesTerminate(lines[1..]);
    }
  }

  lemma {:induction false} JoinTerminate(lines: seq<string>)
    requires lines != []
    ensures Terminate(lines) == Join(lines, '\n') + ['\n']
  {
    if |lines| == 1 {
      assert Terminate(lines[1..]) == "";
    } else {
      JoinTerminate(lines[1..]);
      assert lines[0] + ['\n'] + (Join(lines[1..], '\n') + ['\n']) == (lines[0] + ['\n'] + Join(lines[1..], '\n')) + ['\n'];
    }
  }

  lemma {:induction false} JoinEnd(lines: seq<string>)
    requires lines != []
    requires forall i :: 0 <= i < |lines| ==> '\n' !in lines[i]
    ensures EndsInNewline(Join(lines, '\n')) <==> |lines| > 1 && lines[|lines| - 1] == ""
  {
    if |lines| > 1 {
      JoinEnd(lines[1..]);
      var tail := Join(lines[1..], '\n');
      assert Join(lines, '\n') == lines[0] + ['\n'] + tail;
      if tail == "" {
        JoinEmpty(lines[1..]);
      }
    }
  }

  lemma JoinEmpty(lines: seq<string>)
    requires lines != [] && Join(lines, '\n') == ""
    ensures lines == [""]
  {
  }

  lemma RewriteLineShape(line: string, hash: string, days: nat)
    requires '\n' !in line && '\n' !in hash
    ensures '\n' !in RewriteLine(line, hash, days)
    ensures RewriteLine(line, hash, days) == "" <==> line == ""
  {
    if IsUserLine(line) {
      var fields := Split(line, ':');
      JoinSplit(line, ':');
      PiecesWithin(fields, ':', '\n');
      if |fields| >= 9 {
        var nine := [fields[0], hash, Decimal(days), fields[3], fields[4], fields[5], fields[6], fields[7], fields[8]];
        JoinWithout(nine, ':', '\n');
      } else {
        JoinWithout(if |fields| >= 2 then fields[2..] else [], ':', '\n');
      }
    }
  }

  lemma {:induction false} PiecesWithin(parts: seq<string>, c: char, d: char)
    requires d !in Join(parts, c)
    ensures forall i :: 0 <= i < |parts| ==> d !in parts[i]
  {
    if |parts| > 1 {
      var s := Join(parts, c);
      assert s == parts[0] + [c] + Join(parts[1..], c);
      PiecesWithin(parts[1..], c, d);
      assert parts == [parts[0]] + parts[1..];
    }
  }

  lemma {:induction false} JoinWithout(parts: seq<string>, c: char, d: char)
    requires c != d && forall i :: 0 <= i < |parts| ==> d !in parts[i]
    ensures d !in Join(parts, c)
  {
    if |parts| > 1 {
      JoinWithout(parts[1..], c, d);
    }
  }

  /** What the rewrite gives once the lines are known. */
  lemma RewriteOf(contents: string, lines: seq<string>, hash: string, days: nat)
    requires Lines(contents) == lines && exists i :: 0 <= i < |lines| && IsUserLine(lines[i])
    ensures var joined := Join(RewriteLines(lines, hash, days), '\n');
      RewriteShadow(contents, hash, days)
      == Success(if EndsInNewline(contents) && !EndsInNewline(joined) then joined + "\n" else joined)
  {
    hide Lines, IsUserLine, Join, RewriteLines, EndsInNewline;
  }

  /** The rewritten lines end in a line feed exactly if the last line is blank and not the only one. */
  lemma RewrittenEnd(lines: seq<string>, hash: string, days: nat)
    requires lines != [] && '\n' !in hash && forall i :: 0 <= i < |lines| ==> IsLine(lines[i])
    ensures EndsInNewline(Join(RewriteLines(lines, hash, days), '\n')) <==> |lines| > 1 && lines[|lines| - 1] == ""
  {
    hide RewriteLine, Join;
    var mapped := RewriteLines(lines, hash, days);
    forall i | 0 <= i < |lines|
      ensures '\n' !in mapped[i] && (mapped[i] == "" <==> lines[i] == "")
    {
      RewriteLineShape(lines[i], hash, days);
    }
    JoinEnd(mapped);
  }

  /** What the rewrite gives on a file whose lines all end in a line feed. */
  lemma RewriteTerminated(lines: seq<string>, hash: string, days: nat)
    requires lines != [] && '\n' !in hash
    requires forall i :: 0 <= i < |lines| ==> IsLine(lines[i])
    requires exists i :: 0 <= i < |lines| && IsUserLine(lines[i])
    ensures var joined := Join(RewriteLines(lines, hash, days), '\n');
      RewriteShadow(Terminate(lines), hash, days) == Success(if lines[|lines| - 1] == "" then joined else joined + "\n")
  {
    hide RewriteLine, Lines, Terminate, Join, RewriteShadow, RewriteLines, EndsInNewline, IsUserLine, IsLine;
    LinesTerminate(lines);
    TerminateEnds(lines);
    RewriteOf(Terminate(lines), lines, hash, days);
    RewrittenEnd(lines, hash, days);
    UserIsNotBlank(lines);
  }

  lemma TerminateEnds(lines: seq<string>)
    requires lines != []
    ensures EndsInNewline(Terminate(lines))
  {
    hide Terminate, Join;
    JoinTerminate(lines);
  }

  lemma UserIsNotBlank(lines: seq<string>)
    requires exists i :: 0 <= i < |lines| && IsUserLine(lines[i])
    ensures |lines| == 1 ==> lines[0] != ""
  {
  }

  /** On such a file the rewrite maps the lines and keeps every line end exactly when
      the last line is not blank; a trailing blank line is lost. */
  lemma RewriteKeepsLines(lines: seq<string>, hash: string, days: nat)
    requires lines != [] && '\n' !in hash
    requires forall i :: 0 <= i < |lines| ==> IsLine(lines[i])
    requires exists i :: 0 <= i < |lines| && IsUserLine(lines[i])
    ensures RewriteShadow(Terminate(lines), hash, days) == Success(Terminate(RewriteLines(lines, hash, days)))
       <==> lines[|lines| - 1] != ""
  {
    hide RewriteLine, Lines, Terminate, Join, RewriteShadow;
    RewriteTerminated(lines, hash, days);
    JoinTerminate(RewriteLines(lines, hash, days));
    assert |Join(RewriteLines(lines, hash, days), '\n') + "\n"| == |Join(RewriteLines(lines, hash, days), '\n')| + 1;
  }

  /** Lines without a line feed after the last, which is not empty. */
  lemma {:induction false} LinesJoin(lines: seq<string>)
    requires lines != [] && '\n' !in lines[|lines| - 1] && lines[|lines| - 1] != ""
    requires forall i :: 0 <= i < |lines| - 1 ==> IsLine(lines[i])
    ensures Lines(Join(lines, '\n')) == lines
  {
    var s := Join(lines, '\n');
    if |lines| > 1 {
      var rest := Join(lines[1..], '\n');
      assert s == lines[0] + ['\n'] + rest;
      IndexOfAppend(lines[0], '\n', rest);
      assert s[..|lines[0]|] == lines[0] && s[|lines[0]| + 1..] == rest;
      LinesJoin(lines[1..]);
    }
  }

  /** On a file that does not end in a line feed, the rewrite maps the lines and adds none. */
  lemma RewriteKeepsUnendedLines(lines: seq<string>, hash: string, days: nat)
    requires lines != [] && '\n' !in lines[|lines| - 1] && lines[|lines| - 1] != ""
    requires forall i :: 0 <= i < |lines| - 1 ==> IsLine(lines[i])
    requires exists i :: 0 <= i < |lines| && IsUserLine(lines[i])
    ensures RewriteShadow(Join(lines, '\n'), hash, days) == Success(Join(RewriteLines(lines, hash, days), '\n'))
  {
    hide RewriteLine, RewriteLines, Lines, Join, IsUserLine, RewriteShadow;
    LinesJoin(lines);
    JoinEnd(lines);
    RewriteOf(Join(lines, '\n'), lines, hash, days);
  }

  /** A nine-field line gets the hash and the day count, and keeps the other seven fields. */
  lemma RewriteKeepsFields(line: string, hash: string, days: nat)
    requires IsUserLine(line) && |Split(line, ':')| == 9 && ':' !in hash
    ensures var before, after := Split(line, ':'), Split(RewriteLine(line, hash, days), ':');
      && |after| == 9 && after[1] == hash && after[2] == Decimal(days)
      && forall i :: 0 <= i < 9 && i != 1 && i != 2 ==> after[i] == before[i]
  {
    var f := Split(line, ':');
    assert ':' !in Decimal(days);
    SplitJoin([f[0], hash, Decimal(days), f[3], f[4], f[5], f[6], f[7], f[8]], ':');
  }

  /** The rewritten user line is still the user's line. */
  lemma RewriteKeepsUser(line: string, hash: string, days: nat)
    requires IsUserLine(line)
    ensures IsUserLine(RewriteLine(line, hash, days))
  {
    var k := IndexOf(line, ':');
    assert line == "ubuntu" + [':'] + line[7..];
    IndexOfAppend("ubuntu", ':', line[7..]);
    assert line[..6] == "ubuntu";
    assert Split(line, ':')[0] == "ubuntu";
  }
}
