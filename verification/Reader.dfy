/** The bounded reader of a transcript's first line (hooks/codex-rollout-meta.mjs), on bytes. */
module Reader {
  import opened Common

  newtype byte = x: int | 0 <= x < 256

  const LF: byte := 10
  const CR: byte := 13
  const CHUNK_BYTES: nat := 64 * 1024

  datatype Result = Ok(line: seq<byte>) | InvalidPath | EmptyFile | LineTooLong | ReadError

  // No line feed among the first n bytes.
  predicate NoLF(bytes: seq<byte>, n: nat)
    requires n <= |bytes|
  {
    forall k | 0 <= k < n :: bytes[k] != LF
  }

  function IndexOfLF(bytes: seq<byte>): (i: nat)
    ensures i <= |bytes| && NoLF(bytes, i) && (i < |bytes| ==> bytes[i] == LF)
  {
    if bytes == [] || bytes[0] == LF then 0 else 1 + IndexOfLF(bytes[1..])
  }

  function TrimCarriageReturn(bytes: seq<byte>): seq<byte> {
    if |bytes| > 0 && bytes[|bytes| - 1] == CR then bytes[..|bytes| - 1] else bytes
  }

  // The first line of a whole file. Without a line feed the file itself is the line, and only then may it be empty.
  function FirstLine(file: seq<byte>, limit: nat): Result {
    var i := IndexOfLF(file);
    if i < |file| then
      if i > limit then LineTooLong
      else if TrimCarriageReturn(file[..i]) == [] then EmptyFile
      else Ok(TrimCarriageReturn(file[..i]))
    else if file == [] then EmptyFile
    else if |file| > limit then LineTooLong
    else Ok(TrimCarriageReturn(file))
  }

  // How many bytes a read at this position delivers, for this many asked; None is a failing read.
  type Source = (nat, nat) -> Option<nat>

  // Reads deliver at least one byte before the end of the file and never more than asked or there.
  ghost predicate Serves(source: Source, file: seq<byte>) {
    forall at: nat, want: nat | at <= |file| && want > 0 && source(at, want).Some? ::
      source(at, want).value <= want && source(at, want).value <= |file| - at
      && (at < |file| ==> source(at, want).value > 0)
  }

  // How many bytes are asked for at this position: one more than the limit in all, one chunk at a time.
  function Wanted(limit: nat, at: nat): nat
    requires at <= limit
  {
    if CHUNK_BYTES < limit + 1 - at then CHUNK_BYTES else limit + 1 - at
  }

  // Reading on from here, a read fails before a line feed, the end of the file or the limit is met.
  ghost predicate Breaks(source: Source, file: seq<byte>, limit: nat, at: nat)
    requires Serves(source, file) && at <= |file|
    decreases limit + 1 - at
  {
    && at <= limit
    && match source(at, Wanted(limit, at))
       case None => true
       case Some(n) => n > 0 && NoLF(file[at..at + n], n) && Breaks(source, file, limit, at + n)
  }

  lemma IndexIs(bytes: seq<byte>, i: nat)
    requires i <= |bytes| && NoLF(bytes, i) && (i < |bytes| ==> bytes[i] == LF)
    ensures IndexOfLF(bytes) == i
  {
  }

  // A line feed found in the bytes after a part without one.
  lemma IndexAfter(file: seq<byte>, total: nat, read: nat)
    requires total + read <= |file| && NoLF(file, total)
    ensures var at := IndexOfLF(file[total..total + read]);
            if at < read then IndexOfLF(file) == total + at else NoLF(file, total + read)
  {
    hide IndexOfLF;
    var bytes := file[total..total + read];
    var at := IndexOfLF(bytes);
    forall k | 0 <= k < total + at ensures file[k] != LF {
      if k >= total {
        assert file[k] == bytes[k - total];
      }
    }
    if at < read {
      assert file[total + at] == bytes[at];
      IndexIs(file, total + at);
    }
  }

  /**
   For every pattern of short reads the answer is that of the whole file, from at most limit + 1 bytes, unless a
   read that is performed fails.
   */
  method ReadFirstJsonlLine(path: string, limit: int, opens: bool, file: seq<byte>, source: Source)
    returns (result: Result, consumed: nat)
    requires Serves(source, file)
    ensures path == "" ==> result == InvalidPath
    ensures path != "" && (limit <= 0 || !opens) ==> result == ReadError
    ensures path != "" && limit > 0 && opens ==>
              result == if Breaks(source, file, limit, 0) then ReadError else FirstLine(file, limit)
    ensures consumed <= if limit > 0 then limit + 1 else 0
  {
    hide IndexOfLF, NoLF, FirstLine, TrimCarriageReturn, Serves, Wanted;
    NoneYet(file);
    consumed := 0;
    if path == "" {
      return InvalidPath, 0;
    }
    if limit <= 0 || !opens {
      return ReadError, 0;
    }
    var line: seq<byte> := [];
    while consumed <= limit
      invariant consumed <= limit + 1 && consumed <= |file|
      invariant line == file[..consumed] && NoLF(file, consumed)
      invariant Breaks(source, file, limit, 0) == Breaks(source, file, limit, consumed)
      invariant consumed == limit + 1 ==> FirstLine(file, limit) == LineTooLong
      decreases limit + 1 - consumed
    {
      var want := Wanted(limit, consumed);
      var served := source(consumed, want);
      Served(source, file, limit, consumed);
      if served.None? {
        return ReadError, consumed;
      }
      var read := served.value;
      if read == 0 {
        assert consumed == |file| && line == file;
        WholeFile(file, limit);
        if consumed == 0 {
          return EmptyFile, consumed;
        }
        return Ok(TrimCarriageReturn(line)), consumed;
      }
      var bytes := file[consumed..consumed + read];
      var newlineAt := IndexOfLF(bytes);
      IndexAfter(file, consumed, read);
      FoundHere(bytes);
      FoundLine(file, limit);
      if newlineAt < |bytes| {
        if consumed + newlineAt > limit {
          result := LineTooLong;
          return;
        }
        CutFile(file, consumed, read, newlineAt);
        var trimmed := TrimCarriageReturn(line + bytes[..newlineAt]);
        if trimmed == [] {
          return EmptyFile, consumed + read;
        }
        return Ok(trimmed), consumed + read;
      }
      CutFile(file, consumed, read, read);
      line := line + bytes;
      consumed := consumed + read;
      if consumed > limit {
        LongPrefix(file, consumed, limit);
        return LineTooLong, consumed;
      }
    }
    result := LineTooLong;
  }

  lemma Served(source: Source, file: seq<byte>, limit: nat, at: nat)
    requires Serves(source, file) && at <= |file| && at <= limit
    ensures 0 < Wanted(limit, at) <= limit + 1 - at
    ensures var served := source(at, Wanted(limit, at));
            served.Some? ==> served.value <= Wanted(limit, at) && served.value <= |file| - at
                             && (served.value == 0 ==> at == |file|)
  {
  }

  lemma FoundHere(bytes: seq<byte>)
    ensures NoLF(bytes, |bytes|) <==> IndexOfLF(bytes) == |bytes|
  {
  }

  lemma CutFile(file: seq<byte>, at: nat, n: nat, m: nat)
    requires m <= n && at + n <= |file|
    ensures file[..at] + file[at..at + n][..m] == file[..at + m]
    ensures file[at..at + n][..n] == file[at..at + n]
  {
  }

  lemma NoneYet(file: seq<byte>)
    ensures NoLF(file, 0)
  {
  }

  lemma FoundLine(file: seq<byte>, limit: nat)
    ensures var i := IndexOfLF(file);
            i < |file| ==> FirstLine(file, limit) == if i > limit then LineTooLong
                                                     else if TrimCarriageReturn(file[..i]) == [] then EmptyFile
                                                     else Ok(TrimCarriageReturn(file[..i]))
  {
  }

  lemma WholeFile(file: seq<byte>, limit: nat)
    requires NoLF(file, |file|) && |file| <= limit
    ensures FirstLine(file, limit) == if file == [] then EmptyFile else Ok(TrimCarriageReturn(file))
  {
    IndexIs(file, |file|);
  }

  lemma LongPrefix(file: seq<byte>, n: nat, limit: nat)
    requires limit < n <= |file| && NoLF(file, n)
    ensures FirstLine(file, limit) == LineTooLong
  {
    assert IndexOfLF(file) >= n;
  }

  // ---------- what the reader accepts ----------

  /** No byte after the first limit + 1 matters. */
  lemma NeedsNoMore(file: seq<byte>, limit: nat)
    requires |file| > limit
    ensures FirstLine(file, limit) == FirstLine(file[..limit + 1], limit)
  {
    var head := file[..limit + 1];
    var i := IndexOfLF(file);
    if i <= limit {
      assert head[..i] == file[..i];
      IndexIs(head, i);
    } else {
      IndexIs(head, |head|);
    }
  }

  predicate IsLine(line: seq<byte>) {
    LF !in line && (line != [] ==> line[|line| - 1] != CR)
  }

  /** A written line is read back exactly when it is not empty and fits, its carriage return included. */
  lemma WrittenLine(line: seq<byte>, rest: seq<byte>, limit: nat)
    requires IsLine(line)
    ensures FirstLine(line + [LF] + rest, limit) == Ok(line) <==> line != [] && |line| <= limit
    ensures FirstLine(line + [CR, LF] + rest, limit) == Ok(line) <==> line != [] && |line| + 1 <= limit
    ensures FirstLine(line, limit) == Ok(line) <==> line != [] && |line| <= limit
  {
    var a, b := line + [LF] + rest, line + [CR, LF] + rest;
    assert a[..|line|] == line;
    IndexIs(a, |line|);
    assert b[..|line| + 1] == line + [CR];
    IndexIs(b, |line| + 1);
    assert (line + [CR])[..|line|] == line;
    IndexIs(line, |line|);
    assert line[..|line|] == line;
  }

  /** A carriage return alone is an empty line at the end of the file, but an empty file before a line feed. */
  lemma LoneCarriageReturn(rest: seq<byte>, limit: nat)
    requires limit > 0
    ensures FirstLine([CR], limit) == Ok([]) && FirstLine([CR, LF] + rest, limit) == EmptyFile
  {
    IndexIs([CR], 1);
    var b := [CR, LF] + rest;
    assert b[..1] == [CR];
    IndexIs(b, 1);
  }
}
