/**
 * The local password-file credential driver (auth/local_file/query.go).
 *
 * At start-up the driver reads `~/.mygossh/passwd` one line at a time, splits
 * each line at its first space into a user name and an encrypted password,
 * and keeps a `user -> ciphertext` map; `GetPassword` looks a user up in it
 * and decrypts the stored value.
 */
module LocalFile {
  import opened Wrappers
  import opened GoStrings

  /** The driver object: the map that `init` builds. */
  datatype LocalConfigDriver = LocalConfigDriver(userPwdMap: map<string, string>)

  /** What one `reader.ReadString('\n')` returns: the data read and whether the
      read ended at the end of the file (`io.EOF`). */
  datatype Chunk = Chunk(data: string, eof: bool)

  /** `ReadString('\n')` on the unread rest `s` of the file: everything up to
      and including the first newline; without a newline, all of `s` and EOF. */
  function ReadString(s: string): (c: Chunk)
    ensures |c.data| <= |s| && c.data == s[..|c.data|]
    ensures c.eof <==> '\n' !in s
    ensures c.eof ==> c.data == s
    ensures !c.eof ==> |c.data| > 0 && c.data[|c.data| - 1] == '\n' && '\n' !in c.data[..|c.data| - 1]
  {
    var k := IndexOf(s, '\n');
    if k < 0 then Chunk(s, true) else Chunk(s[..k + 1], false)
  }

  /** The line as the loop sees it: one trailing newline removed, if any. */
  function StripNewline(data: string): (line: string)
    ensures line == data || line + "\n" == data
    ensures |data| > 0 && data[|data| - 1] == '\n' ==> line + "\n" == data
  {
    if |data| > 0 && data[|data| - 1] == '\n' then data[..|data| - 1] else data
  }

  /** The lines the loop processes, in order: one per `ReadString` that does
      not return empty data at EOF, each without its trailing newline. */
  function Lines(s: string): (ls: seq<string>)
    ensures ls == [] <==> s == []
    decreases |s|
  {
    if s == [] then []
    else
      var c := ReadString(s);
      [StripNewline(c.data)] + Lines(s[|c.data|..])
  }

  /** Lines written back with a newline after each. */
  function Unlines(ls: seq<string>): string
    decreases |ls|
  {
    if ls == [] then [] else ls[0] + "\n" + Unlines(ls[1..])
  }

  /** No line handed to the parser holds a newline. */
  lemma {:induction false} LinesHaveNoNewline(s: string)
    ensures forall i | 0 <= i < |Lines(s)| :: '\n' !in Lines(s)[i]
    decreases |s|
  {
    if s != [] {
      var c := ReadString(s);
      LinesHaveNoNewline(s[|c.data|..]);
    }
  }

  /** The file as `Unlines(Lines(_))` gives it back: unchanged when it is
      empty or ends with a newline, and with one newline added otherwise. */
  function Restored(s: string): string {
    if s == [] || s[|s| - 1] == '\n' then s else s + "\n"
  }

  lemma UnlinesCons(line: string, ls: seq<string>)
    ensures Unlines([line] + ls) == line + "\n" + Unlines(ls)
  {
    assert ([line] + ls)[1..] == ls;
  }

  /** A read that ends at a newline splits the file into its line, the
      newline and the rest. */
  lemma ReadLineSplits(s: string)
    requires s != [] && !ReadString(s).eof
    ensures var c := ReadString(s);
      s == StripNewline(c.data) + "\n" + s[|c.data|..]
  {
    var c := ReadString(s);
    assert StripNewline(c.data) + "\n" == c.data;
    assert s == c.data + s[|c.data|..];
  }

  lemma JoinRestored(line: string, rest: string)
    ensures line + "\n" + Restored(rest) == Restored(line + "\n" + rest)
  {
    var s := line + "\n" + rest;
    if rest != [] {
      assert s[|s| - 1] == rest[|rest| - 1];
      AppendAssoc(line + "\n", rest, "\n");
    }
  }

  lemma UnlinesLinesStep(s: string)
    requires s != []
    requires var rest := s[|ReadString(s).data|..]; Unlines(Lines(rest)) == Restored(rest)
    ensures Unlines(Lines(s)) == Restored(s)
  {
    var c := ReadString(s);
    var rest := s[|c.data|..];
    var line := StripNewline(c.data);
    UnlinesCons(line, Lines(rest));
    if c.eof {
      assert line == s;
    } else {
      ReadLineSplits(s);
      JoinRestored(line, rest);
    }
  }

  /** Writing the lines back restores the file, except that a last line
      without a newline gets one: so exactly one newline is removed per line
      and a final line without a newline is still read. */
  lemma {:induction false} UnlinesLines(s: string)
    ensures Unlines(Lines(s)) == Restored(s)
    decreases |s|
  {
    if s != [] {
      UnlinesLines(s[|ReadString(s).data|..]);
      UnlinesLinesStep(s);
    }
  }


  /** A line without a newline, followed by one, is read in one go. */
  lemma ReadLineBack(line: string, rest: string)
    requires '\n' !in line
    ensures ReadString(line + "\n" + rest) == Chunk(line + "\n", false)
    ensures (line + "\n" + rest)[|line| + 1..] == rest
  {
    var s := line + "\n" + rest;
    assert s[|line|] == '\n';
    assert s[..|line|] == line;
    assert s[..|line| + 1] == line + "\n";
  }

  /** A line without a newline, followed by one, is the first line read. */
  lemma LinesOfLine(line: string, rest: string)
    requires '\n' !in line
    ensures Lines(line + "\n" + rest) == [line] + Lines(rest)
  {
    ReadLineBack(line, rest);
    assert StripNewline(line + "\n") == line;
  }

  /** Reading back lines that hold no newline gives the same lines. */
  lemma {:induction false} LinesUnlines(ls: seq<string>)
    requires forall i | 0 <= i < |ls| :: '\n' !in ls[i]
    ensures Lines(Unlines(ls)) == ls
    decreases |ls|
  {
    if ls != [] {
      var tail := ls[1..];
      assert forall i | 0 <= i < |tail| :: '\n' !in tail[i] by {
        forall i | 0 <= i < |tail| ensures '\n' !in tail[i] {
          assert tail[i] == ls[i + 1];
        }
      }
      LinesUnlines(tail);
      assert '\n' !in ls[0];
      LinesOfLine(ls[0], Unlines(tail));
      assert ls == [ls[0]] + tail;
    }
  }

  /** What parsing one line gives: a line starting with a space is skipped,
      a line without any space has no parse, any other line is an entry. */
  datatype LineParse = Skipped | Entry(user: string, encPass: string) | NoSeparator

  /** The body of the loop for one line: `strings.Index(data, " ")`, then the
      two trimmed halves around the first space. */
  function ParseLine(data: string): (p: LineParse)
    ensures p.Skipped? <==> |data| > 0 && data[0] == ' '
    ensures p.NoSeparator? <==> ' ' !in data
    ensures p.Entry? ==> ' ' !in p.user && Trimmed(p.user) && Trimmed(p.encPass)
  {
    var index := IndexOf(data, ' ');
    if index == 0 then Skipped
    else if index < 0 then NoSeparator
    else
      var user := TrimSpace(data[..index]);
      assert ' ' !in user by {
        var i, j :| 0 <= i <= j <= index && user == data[..index][i..j];
      }
      Entry(user, TrimSpace(data[index..]))
  }

  /** A line `user + " " + encPass`, with a non-empty trimmed user name that
      holds no space and a trimmed password (which may hold inner spaces),
      parses back to both: every entry `ParseLine` yields with a non-empty
      user name is written this way. */
  lemma ParseFormattedLine(user: string, encPass: string)
    requires user != [] && ' ' !in user && Trimmed(user)
    requires Trimmed(encPass)
    ensures ParseLine(user + " " + encPass) == Entry(user, encPass)
  {
    var data := user + " " + encPass;
    assert data[..|user|] == user;
    assert data[|user|] == ' ';
    assert IndexOf(data, ' ') == |user|;
    assert data[|user|..] == " " + encPass;
    TrimSpaceAfterSpace(" ", encPass);
  }

  /** An entry with an empty user name, which `ParseLine` yields for a line
      whose text before the first space is all white space, is written back
      as a tab, a space and the password. */
  lemma ParseEmptyUserLine(encPass: string)
    requires Trimmed(encPass)
    ensures ParseLine("\t " + encPass) == Entry("", encPass)
  {
    var data := "\t " + encPass;
    assert data[0] == '\t' && data[1] == ' ';
    assert IndexOf(data, ' ') == 1;
    assert data[..1] == "\t" + [];
    TrimSpaceAfterSpace("\t", []);
    assert data[1..] == " " + encPass;
    TrimSpaceAfterSpace(" ", encPass);
  }

  /** The panic of `data[:index]` when `index` is -1, with the 0-based number
      of the line that raised it. */
  datatype LoadPanic = SliceOutOfRange(lineNo: nat, line: string)

  /** One turn of the loop on the map built so far, for line number `n`. */
  function Step(m: map<string, string>, n: nat, line: string): (r: Result<map<string, string>, LoadPanic>)
    ensures r.Err? <==> ' ' !in line
    ensures r.Err? ==> r.error == SliceOutOfRange(n, line)
    ensures r.Ok? ==> m.Keys <= r.value.Keys
    ensures |line| > 0 && line[0] == ' ' ==> r == Ok(m)
  {
    match ParseLine(line)
    case Skipped => Ok(m)
    case NoSeparator => Err(SliceOutOfRange(n, line))
    case Entry(user, encPass) => Ok(m[user := encPass])
  }

  /** The map the loop has built after the given lines, or the panic that
      stopped it: entries are inserted in order, so a later line overwrites
      an earlier one for the same user. */
  function ParseLines(lines: seq<string>): (r: Result<map<string, string>, LoadPanic>)
    ensures r.Err? ==> r.error.lineNo < |lines| && r.error.line == lines[r.error.lineNo]
    decreases |lines|
  {
    if lines == [] then Ok(map[])
    else
      var n := |lines| - 1;
      match ParseLines(lines[..n])
      case Err(e) => Err(e)
      case Ok(m) => Step(m, n, lines[n])
  }

  /** Parsing one more line: the panic so far, or one more step. */
  lemma ParseLinesSnoc(lines: seq<string>, line: string)
    ensures ParseLines(lines + [line]) ==
      match ParseLines(lines)
      case Err(e) => Err(e)
      case Ok(m) => Step(m, |lines|, line)
  {
    assert (lines + [line])[..|lines|] == lines;
  }

  /** Reference definition of a user's stored value: the password of the last
      entry line for that user, if any. */
  function LastEntry(lines: seq<string>, user: string): Option<string>
    decreases |lines|
  {
    if lines == [] then None
    else
      var n := |lines| - 1;
      var p := ParseLine(lines[n]);
      if p.Entry? && p.user == user then Some(p.encPass) else LastEntry(lines[..n], user)
  }

  /** After a panic, one more line changes nothing. */
  lemma PanicPersistsStep(lines: seq<string>, line: string)
    requires ParseLines(lines).Err?
    ensures ParseLines(lines + [line]) == ParseLines(lines)
  {
    ParseLinesSnoc(lines, line);
  }

  /** Once a line has made the load panic, later lines change nothing. */
  lemma {:induction false} PanicPersists(lines: seq<string>, more: seq<string>)
    requires ParseLines(lines).Err?
    ensures ParseLines(lines + more) == ParseLines(lines)
    decreases |more|
  {
    if more == [] {
      assert lines + more == lines;
    } else {
      var n := |more| - 1;
      PanicPersists(lines, more[..n]);
      assert lines + more == (lines + more[..n]) + [more[n]];
      PanicPersistsStep(lines + more[..n], more[n]);
    }
  }

  /** Every line of `lines` has a space in it. */
  predicate AllSeparated(lines: seq<string>) {
    forall i | 0 <= i < |lines| :: ' ' in lines[i]
  }

  /** What `ParseLinesPanics` states about `lines`. */
  predicate PanicsAtFirstUnseparated(lines: seq<string>) {
    && (ParseLines(lines).Ok? <==> AllSeparated(lines))
    && (ParseLines(lines).Err? ==>
          var e := ParseLines(lines).error;
          e.lineNo < |lines| && e.line == lines[e.lineNo] && ' ' !in e.line && AllSeparated(lines[..e.lineNo]))
  }

  lemma ParseLinesPanicsStep(lines: seq<string>)
    requires lines != []
    requires PanicsAtFirstUnseparated(lines[..|lines| - 1])
    ensures PanicsAtFirstUnseparated(lines)
  {
    var n := |lines| - 1;
    var init := lines[..n];
    if ParseLines(init).Err? {
      var e := ParseLines(init).error;
      assert init[e.lineNo] == lines[e.lineNo];
      assert lines[..e.lineNo] == init[..e.lineNo];
    } else {
      assert lines == init + [lines[n]];
      assert AllSeparated(lines) <==> AllSeparated(init) && ' ' in lines[n];
      assert lines[..n] == init;
    }
  }

  /** The load succeeds exactly when every line has a space in it, and a
      panic names the first line without one (an empty line is such a line). */
  lemma {:induction false} ParseLinesPanics(lines: seq<string>)
    ensures ParseLines(lines).Ok? <==> AllSeparated(lines)
    ensures ParseLines(lines).Err? ==>
      var e := ParseLines(lines).error;
      e.lineNo < |lines| && e.line == lines[e.lineNo] && ' ' !in e.line && AllSeparated(lines[..e.lineNo])
    decreases |lines|
  {
    if lines != [] {
      ParseLinesPanics(lines[..|lines| - 1]);
      ParseLinesPanicsStep(lines);
    }
  }

  /** A successful load holds, for every user, the value of the last entry
      line for that user, and no user without an entry line. */
  lemma {:induction false} ParseLinesLastWins(lines: seq<string>, user: string)
    requires ParseLines(lines).Ok?
    ensures user in ParseLines(lines).value <==> LastEntry(lines, user).Some?
    ensures user in ParseLines(lines).value ==> ParseLines(lines).value[user] == LastEntry(lines, user).value
    decreases |lines|
  {
    if lines != [] {
      var n := |lines| - 1;
      ParseLinesLastWins(lines[..n], user);
    }
  }

  /** Appending a line that starts with a space adds no entry; appending an
      entry line sets that user's value and leaves every other user as it was. */
  lemma AppendLine(lines: seq<string>, line: string)
    requires ParseLines(lines).Ok?
    ensures |line| > 0 && line[0] == ' ' ==> ParseLines(lines + [line]) == ParseLines(lines)
    ensures ParseLine(line).Entry? ==>
      var m := ParseLines(lines).value;
      var m' := ParseLines(lines + [line]).value;
      && ParseLines(lines + [line]).Ok?
      && m'.Keys == m.Keys + {ParseLine(line).user}
      && m'[ParseLine(line).user] == ParseLine(line).encPass
      && forall u | u in m && u != ParseLine(line).user :: m'[u] == m[u]
  {
    assert (lines + [line])[..|lines|] == lines;
  }

  lemma EmptyAppend<T>(a: seq<T>)
    ensures [] + a == a
  {
  }

  lemma AppendAssoc<T>(a: seq<T>, b: seq<T>, c: seq<T>)
    ensures a + (b + c) == (a + b) + c
  {
  }

  lemma DropDrop<T>(s: seq<T>, i: nat, k: nat)
    requires i + k <= |s|
    ensures s[i..][k..] == s[i + k..]
  {
  }

  /** `Lines` of a non-empty text: the first line read, then the rest. */
  lemma LinesUnfold(s: string, data: string)
    requires s != [] && data == ReadString(s).data
    ensures |data| <= |s| && Lines(s) == [StripNewline(data)] + Lines(s[|data|..])
  {
  }

  /** One read at `pos` takes one line off the unread rest, which then
      starts at `next`. */
  lemma LinesAdvance(s: string, pos: nat, next: nat, data: string)
    requires pos < |s|
    requires data == ReadString(s[pos..]).data && next == pos + |data|
    ensures next <= |s|
    ensures Lines(s[pos..]) == [StripNewline(data)] + Lines(s[next..])
  {
    var rest := s[pos..];
    assert |data| <= |rest|;
    assert rest[|data|..] == s[next..] by { DropDrop(s, pos, |data|); }
    LinesUnfold(rest, data);
  }

  /** `Step` as the loop body computes it, from `strings.Index(data, " ")`. */
  lemma StepByIndex(m: map<string, string>, n: nat, data: string)
    ensures var index := IndexOf(data, ' ');
      && (index == 0 ==> Step(m, n, data) == Ok(m))
      && (index < 0 ==> Step(m, n, data) == Err(SliceOutOfRange(n, data)))
      && (index > 0 ==> Step(m, n, data) == Ok(m[TrimSpace(data[..index]) := TrimSpace(data[index..])]))
  {
  }

  /** What the file looks like to `init`. */
  datatype PasswdFile =
    | HomeDirUnknown          // os.UserHomeDir failed
    | Missing                 // the file does not exist
    | Unreadable              // os.OpenFile failed otherwise
    | Contents(text: string)

  /** The effect of `init`: the driver registered under "local_file" with the
      map read from the file, nothing registered, or a panic. */
  datatype InitOutcome =
    | NotRegistered
    | Registered(name: string, driver: LocalConfigDriver)
    | Panicked(panic: LoadPanic)

  /** The package's `init`: reads the file line by line into the map. */
  method Init(file: PasswdFile) returns (o: InitOutcome)
    ensures o.NotRegistered? <==> !file.Contents?
    ensures file.Contents? ==>
      match ParseLines(Lines(file.text))
      case Ok(m) => o == Registered("local_file", LocalConfigDriver(m))
      case Err(e) => o == Panicked(e)
  {
    if !file.Contents? {
      return NotRegistered;
    }
    var content := file.text;
    var userPwdMap: map<string, string> := map[];
    var pos, lineNo := 0, 0;
    ghost var done: seq<string> := [];
    assert content[pos..] == content;
    EmptyAppend(Lines(content));
    while true
      invariant 0 <= pos <= |content|
      invariant Lines(content) == done + Lines(content[pos..])
      invariant ParseLines(done) == Ok(userPwdMap)
      invariant lineNo == |done|
      decreases |content| - pos
    {
      var chunk := ReadString(content[pos..]);
      var data := chunk.data;
      if chunk.eof && |data| == 0 {
        break;
      }
      ghost var before := done;
      ghost var line := StripNewline(data);
      ghost var from := pos;
      pos, lineNo := pos + |data|, lineNo + 1;
      LinesAdvance(content, from, pos, data);
      AppendAssoc(before, [line], Lines(content[pos..]));
      done := before + [line];
      ParseLinesSnoc(before, line);
      StepByIndex(userPwdMap, |before|, line);

      if |data| > 0 && data[|data| - 1] == '\n' {
        data := data[..|data| - 1];
      }
      assert data == line;

      var index := IndexOf(data, ' ');
      if index == 0 {
        continue;
      }
      if index < 0 {
        o := Panicked(SliceOutOfRange(lineNo - 1, data));
        PanicPersists(done, Lines(content[pos..]));
        return;
      }
      var user := TrimSpace(data[..index]);
      var encPass := TrimSpace(data[index..]);
      userPwdMap := userPwdMap[user := encPass];
    }
    assert content[pos..] == [];
    assert done + [] == done;
    o := Registered("local_file", LocalConfigDriver(userPwdMap));
  }

  /** Why `GetPassword` gives no password: the user has no entry, the
      decryption failed, or the key is shorter than 16 bytes, which stands
      for the panic of `skey[:16]` (the key is modelled by its length; the
      capacity Go checks that slice against is not modelled). */
  datatype PasswordError = NoPassword | DecodeFailed(cause: string) | ShortKeyPanic(keyLength: nat)

  /** `enc.AesDecEncode(ciphertext, key)`: decryption, outside this model. */
  type Decrypter = (string, seq<bv8>) -> Result<string, string>

  /** `LocalConfigDriver.GetPassword(host, user)`, with `skey` the process key
      from `enc.GetKey()`: a stored user's ciphertext decrypted under the
      key's first 16 bytes, or an error. */
  function GetPassword(dv: LocalConfigDriver, host: string, user: string, skey: seq<bv8>, aesDec: Decrypter)
    : (r: Result<string, PasswordError>)
    ensures r == Err(NoPassword) <==> user !in dv.userPwdMap
    ensures r == Err(ShortKeyPanic(|skey|)) <==> user in dv.userPwdMap && |skey| < 16
    ensures user in dv.userPwdMap && |skey| >= 16 ==>
      && (r.Ok? <==> aesDec(dv.userPwdMap[user], skey[..16]).Ok?)
      && (r.Ok? ==> r.value == aesDec(dv.userPwdMap[user], skey[..16]).value)
      && (r.Err? ==> r.error == DecodeFailed(aesDec(dv.userPwdMap[user], skey[..16]).error))
  {
    if user in dv.userPwdMap then
      var pass := dv.userPwdMap[user];
      if |skey| < 16 then Err(ShortKeyPanic(|skey|))
      else
        match aesDec(pass, skey[..16])
        case Ok(text) => Ok(text)
        case Err(decErr) => Err(DecodeFailed(decErr))
    else
      Err(NoPassword)
  }

  /** The host argument plays no part in the answer. */
  lemma GetPasswordIgnoresHost(dv: LocalConfigDriver, host1: string, host2: string, user: string,
                               skey: seq<bv8>, aesDec: Decrypter)
    ensures GetPassword(dv, host1, user, skey, aesDec) == GetPassword(dv, host2, user, skey, aesDec)
  {
  }

  /** From file to answer: after a successful load the driver answers for a
      user with the decryption of that user's last entry line, and with
      `NoPassword` when the file has no entry line for the user. */
  lemma GetPasswordFromFile(text: string, host: string, user: string, skey: seq<bv8>, aesDec: Decrypter)
    requires ParseLines(Lines(text)).Ok?
    ensures var dv := LocalConfigDriver(ParseLines(Lines(text)).value);
      match LastEntry(Lines(text), user)
      case None => GetPassword(dv, host, user, skey, aesDec) == Err(NoPassword)
      case Some(c) =>
        GetPassword(dv, host, user, skey, aesDec) ==
          if |skey| < 16 then Err(ShortKeyPanic(|skey|))
          else
            match aesDec(c, skey[..16])
            case Ok(t) => Ok(t)
            case Err(e) => Err(DecodeFailed(e))
  {
    ParseLinesLastWins(Lines(text), user);
  }
}
