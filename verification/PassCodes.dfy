/** Short boarding codes: boarding/code.go, passstore.go, and what they stand for in handlers.go. */
module PassCodes {
  import opened Wrappers

  type Instant = int
  type Token = string

  // ----- codes -----

  const ALPHABET: string := "0123456789ABCDEFGHJKMNPQRSTVWXYZ"

  predicate IsSeparator(c: char) { c in "- \t\n\r" }

  const LONG_S: char := '\U{17F}'
  const DOTLESS_I: char := '\U{131}'

  /** Upper-casing, for every letter whose upper case is an ASCII letter. */
  function Upper(c: char): char {
    if 'a' <= c <= 'z' then ((c as int) - 32) as char
    else if c == LONG_S then 'S'
    else if c == DOTLESS_I then 'I'
    else c
  }

  function Normalized(input: string): string {
    if input == [] then []
    else
      var front, c := Normalized(input[..|input| - 1]), input[|input| - 1];
      if IsSeparator(c) then front else front + [Upper(c)]
  }

  method NormalizeCode(input: string) returns (code: string)
    ensures code == Normalized(input)
  {
    var kept: string := [];
    for i := 0 to |input|
      invariant Uppered(kept) == Normalized(input[..i])
    {
      NormalizedOneMore(input, i);
      if IsSeparator(input[i]) {
        continue;
      }
      kept := kept + [input[i]];
    }
    assert input[..|input|] == input;
    code := Uppered(kept);
  }

  /** strings.ToUpper. */
  function Uppered(s: string): (t: string)
    ensures |t| == |s|
  {
    seq(|s|, i requires 0 <= i < |s| => Upper(s[i]))
  }

  lemma NormalizedOneMore(input: string, i: nat)
    requires i < |input|
    ensures Normalized(input[..i + 1])
            == if IsSeparator(input[i]) then Normalized(input[..i]) else Normalized(input[..i]) + [Upper(input[i])]
  {
    assert input[..i + 1][..i] == input[..i];
  }

  /** A code, typed: letters in either case, with separators anywhere. */
  predicate IsVariant(typed: string, code: string) {
    if typed == [] then code == []
    else
      var front, c := typed[..|typed| - 1], typed[|typed| - 1];
      if c == '-' || c == ' ' || c == '\t' || c == '\n' || c == '\r' then IsVariant(front, code)
      else code != [] && SameLetter(c, code[|code| - 1]) && IsVariant(front, code[..|code| - 1])
  }

  /** c is k, the small letter of a capital k, or the long s for an S. */
  predicate SameLetter(c: char, k: char) {
    c == k || ('A' <= k <= 'Z' && c as int == k as int + 32) || (c == LONG_S && k == 'S')
  }

  /** Digits and capitals but I, L, O and U. */
  predicate InAlphabet(k: char) {
    '0' <= k <= '9' || ('A' <= k <= 'Z' && k != 'I' && k != 'L' && k != 'O' && k != 'U')
  }

  predicate AllLetters(code: string) {
    forall i :: 0 <= i < |code| ==> InAlphabet(code[i])
  }

  const CODE_LENGTH: nat := 8

  predicate IsCode(code: string) { |code| == CODE_LENGTH && AllLetters(code) }

  lemma LettersAreInAlphabet(i: nat)
    requires i < |ALPHABET|
    ensures |ALPHABET| == 32 && InAlphabet(ALPHABET[i])
  {
  }

  lemma SameLetterIsUpper(c: char, k: char)
    requires InAlphabet(k)
    ensures !IsSeparator(k) && (Upper(c) == k <==> SameLetter(c, k))
  {
  }

  /** Normalizing yields a given code exactly from its variants. */
  lemma {:induction false} NormalizesToCode(typed: string, code: string)
    requires AllLetters(code)
    ensures Normalized(typed) == code <==> IsVariant(typed, code)
  {
    if typed != [] {
      var front, c := typed[..|typed| - 1], typed[|typed| - 1];
      if IsSeparator(c) {
        NormalizesToCode(front, code);
      } else if code != [] {
        var shorter, k := code[..|code| - 1], code[|code| - 1];
        NormalizesToCode(front, shorter);
        SameLetterIsUpper(c, k);
        assert code == shorter + [k];
        assert Normalized(typed)[..|Normalized(front)|] == Normalized(front);
      }
    }
  }

  /** The value of a letter of Crockford's base 32: digits, then the letters in order without I, L, O and U. */
  function LetterValue(k: char): int {
    if k <= '9' then k as int - '0' as int
    else if k < 'I' then k as int - 'A' as int + 10
    else if k < 'L' then k as int - 'J' as int + 18
    else if k < 'O' then k as int - 'M' as int + 20
    else if k < 'U' then k as int - 'P' as int + 22
    else k as int - 'V' as int + 27
  }

  function CodeOf(bytes: seq<nat>): (code: string)
    ensures |code| == |bytes|
  {
    seq(|bytes|, i requires 0 <= i < |bytes| => ALPHABET[bytes[i] % |ALPHABET|])
  }

  /** The random bytes are a parameter. */
  method GenerateCode(bytes: seq<nat>) returns (code: string)
    requires |bytes| == CODE_LENGTH
    ensures code == CodeOf(bytes) && IsCode(code)
    ensures |code| == 8 && forall k :: 0 <= k < 8 ==> LetterValue(code[k]) == bytes[k] % 32
  {
    code := [];
    for i := 0 to |bytes|
      invariant |code| == i && forall k :: 0 <= k < i ==> code[k] == CodeOf(bytes)[k] && InAlphabet(code[k])
    {
      LettersAreInAlphabet(bytes[i] % |ALPHABET|);
      code := code + [ALPHABET[bytes[i] % |ALPHABET|]];
    }
    forall k | 0 <= k < 8 ensures LetterValue(code[k]) == bytes[k] % 32 {
      CodeTellsItsBytes(bytes, k);
    }
  }

  lemma LettersHaveTheirValues(i: nat)
    requires i < 32
    ensures |ALPHABET| == 32 && LetterValue(ALPHABET[i]) == i
  {
  }

  /** Each byte can be read back from its letter, modulo 32: every letter stands for as many bytes as any other. */
  lemma CodeTellsItsBytes(bytes: seq<nat>, i: nat)
    requires i < |bytes|
    ensures |CodeOf(bytes)| == |bytes| && InAlphabet(CodeOf(bytes)[i]) && LetterValue(CodeOf(bytes)[i]) == bytes[i] % 32
  {
    LettersHaveTheirValues(bytes[i] % 32);
    LettersAreInAlphabet(bytes[i] % |ALPHABET|);
  }

  /** Generated codes are already normal. */
  lemma {:induction false} CodeIsItsOwnVariant(code: string)
    requires AllLetters(code)
    ensures Normalized(code) == code
  {
    if code != [] {
      var k := code[|code| - 1];
      SameLetterIsUpper(k, k);
      CodeIsItsOwnVariant(code[..|code| - 1]);
      assert code == code[..|code| - 1] + [k];
    }
  }

  // ----- the table of issued codes -----

  /** Expired rows are kept this long: ten minutes, in seconds. */
  const SWEEP_GRACE: int := 600

  const MAX_ATTEMPTS: nat := 5

  datatype IssuedPass = IssuedPass(code: string, token: Token, expires: Instant)

  function Swept(rows: seq<IssuedPass>, cutoff: Instant): seq<IssuedPass> {
    if rows == [] then []
    else
      var front, last := Swept(rows[..|rows| - 1], cutoff), rows[|rows| - 1];
      if last.expires < cutoff then front else front + [last]
  }

  function Find(rows: seq<IssuedPass>, code: string): Option<IssuedPass> {
    if rows == [] then None
    else if rows[|rows| - 1].code == code then Some(rows[|rows| - 1])
    else Find(rows[..|rows| - 1], code)
  }

  /** The primary key refuses a code already in the table. */
  function Stored(rows: seq<IssuedPass>, p: IssuedPass): seq<IssuedPass> {
    if Find(rows, p.code).None? then rows + [p] else rows
  }

  /** The first of at most five candidates that is free. */
  function FirstFree(rows: seq<IssuedPass>, candidates: seq<string>, from: nat): Option<string>
    decreases |candidates| - from
  {
    if from >= |candidates| || from >= MAX_ATTEMPTS then None
    else if Find(rows, candidates[from]).None? then Some(candidates[from])
    else FirstFree(rows, candidates, from + 1)
  }

  class PassStore {
    var rows: seq<IssuedPass>

    constructor ()
      ensures rows == []
    {
      rows := [];
    }

    method Store(p: IssuedPass) returns (stored: bool)
      modifies this
      ensures rows == Stored(old(rows), p) && stored == Find(old(rows), p.code).None?
    {
      var taken := Select(p.code);
      if taken.Some? {
        return false;
      }
      rows := rows + [p];
      stored := true;
    }

    method Select(code: string) returns (row: Option<IssuedPass>)
      ensures row == Find(rows, code)
    {
      var i: nat := |rows|;
      assert rows[..i] == rows;
      while i > 0
        invariant i <= |rows| && Find(rows[..i], code) == Find(rows, code)
      {
        i := i - 1;
        assert rows[..i + 1][..i] == rows[..i];
        if rows[i].code == code {
          return Some(rows[i]);
        }
      }
      row := None;
    }

    method CleanupExpired(now: Instant) returns (deleted: nat)
      modifies this
      ensures rows == Swept(old(rows), now - SWEEP_GRACE) && deleted == |old(rows)| - |rows|
    {
      var kept: seq<IssuedPass> := [];
      deleted := 0;
      for i := 0 to |rows|
        invariant rows == old(rows) && kept == Swept(rows[..i], now - SWEEP_GRACE) && deleted + |kept| == i
      {
        assert rows[..i + 1][..i] == rows[..i];
        if rows[i].expires >= now - SWEEP_GRACE {
          kept := kept + [rows[i]];
        } else {
          deleted := deleted + 1;
        }
      }
      assert rows[..|rows|] == rows;
      rows := kept;
    }

    /** Sweeps first, then reads. */
    method Lookup(typed: string, now: Instant) returns (row: Option<IssuedPass>)
      modifies this
      ensures rows == Swept(old(rows), now - SWEEP_GRACE) && row == Find(rows, Normalized(typed))
    {
      var _ := CleanupExpired(now);
      var code := NormalizeCode(typed);
      row := Select(code);
    }

    /** IssuePass's retry loop over freshly generated codes. */
    method Issue(candidates: seq<string>, token: Token, expires: Instant) returns (code: Option<string>)
      modifies this
      ensures code == FirstFree(old(rows), candidates, 0)
      ensures rows == match code case None => old(rows) case Some(c) => old(rows) + [IssuedPass(c, token, expires)]
    {
      var attempt := 0;
      while attempt < |candidates| && attempt < MAX_ATTEMPTS
        invariant rows == old(rows) && FirstFree(rows, candidates, attempt) == FirstFree(rows, candidates, 0)
      {
        var stored := Store(IssuedPass(candidates[attempt], token, expires));
        if stored {
          return Some(candidates[attempt]);
        }
        attempt := attempt + 1;
      }
      code := None;
    }
  }

  // ----- runs of issues, lookups and clean-ups -----

  datatype Op =
    | Issue(candidates: seq<string>, token: Token, expires: Instant, at: Instant)
    | Lookup(typed: string, at: Instant)
    | Cleanup(at: Instant)

  function Next(rows: seq<IssuedPass>, op: Op): seq<IssuedPass> {
    match op
    case Issue(candidates, token, expires, _) =>
      (match FirstFree(rows, candidates, 0) case None => rows case Some(c) => rows + [IssuedPass(c, token, expires)])
    case Lookup(_, at) => Swept(rows, at - SWEEP_GRACE)
    case Cleanup(at) => Swept(rows, at - SWEEP_GRACE)
  }

  function Run(rows: seq<IssuedPass>, ops: seq<Op>): seq<IssuedPass> {
    if ops == [] then rows else Next(Run(rows, ops[..|ops| - 1]), ops[|ops| - 1])
  }

  predicate NoneAfter(ops: seq<Op>, now: Instant) {
    forall i :: 0 <= i < |ops| ==> ops[i].at <= now
  }

  predicate CodesDiffer(rows: seq<IssuedPass>) {
    rows == [] || (CodesDiffer(rows[..|rows| - 1]) && Find(rows[..|rows| - 1], rows[|rows| - 1].code).None?)
  }

  /** Sweeping takes a row exactly when it is past the cutoff. */
  lemma {:induction false} FindAfterSweep(rows: seq<IssuedPass>, cutoff: Instant, code: string)
    requires CodesDiffer(rows)
    ensures Find(Swept(rows, cutoff), code)
            == if Find(rows, code).Some? && Find(rows, code).value.expires < cutoff then None else Find(rows, code)
  {
    if rows != [] {
      var front, last := rows[..|rows| - 1], rows[|rows| - 1];
      FindAfterSweep(front, cutoff, code);
      FindAfterSweep(front, cutoff, last.code);
      assert (Swept(front, cutoff) + [last])[..|Swept(front, cutoff)|] == Swept(front, cutoff);
    }
  }

  lemma {:induction false} SweepKeepsCodes(rows: seq<IssuedPass>, cutoff: Instant)
    requires CodesDiffer(rows)
    ensures CodesDiffer(Swept(rows, cutoff))
  {
    if rows != [] {
      var front, last := rows[..|rows| - 1], rows[|rows| - 1];
      SweepKeepsCodes(front, cutoff);
      FindAfterSweep(front, cutoff, last.code);
      assert (Swept(front, cutoff) + [last])[..|Swept(front, cutoff)|] == Swept(front, cutoff);
    }
  }

  lemma {:induction false} FreeIsNotFound(rows: seq<IssuedPass>, candidates: seq<string>, from: nat)
    ensures FirstFree(rows, candidates, from).Some? ==> Find(rows, FirstFree(rows, candidates, from).value).None?
    decreases |candidates| - from
  {
    if from < |candidates| && from < MAX_ATTEMPTS {
      FreeIsNotFound(rows, candidates, from + 1);
    }
  }

  /** The first of at most five candidates that no stored pass has. */
  lemma {:induction false} IssuedIsFirstFree(rows: seq<IssuedPass>, candidates: seq<string>, from: nat)
    ensures FirstFree(rows, candidates, from).None?
            <==> forall i :: from <= i < |candidates| && i < 5 ==> Find(rows, candidates[i]).Some?
    ensures FirstFree(rows, candidates, from).Some? ==>
              exists i :: from <= i < |candidates| && i < 5 && FirstFree(rows, candidates, from) == Some(candidates[i])
                          && Find(rows, candidates[i]).None?
                          && forall j :: from <= j < i ==> Find(rows, candidates[j]).Some?
    decreases |candidates| - from
  {
    if from < |candidates| && from < MAX_ATTEMPTS {
      IssuedIsFirstFree(rows, candidates, from + 1);
    }
  }

  /** A row is found by its code. */
  lemma {:induction false} FoundByCode(rows: seq<IssuedPass>, p: IssuedPass)
    requires CodesDiffer(rows)
    ensures Find(rows, p.code) == Some(p) <==> p in rows
    ensures Find(rows, p.code).None? <==> forall q :: q in rows ==> q.code != p.code
  {
    if rows != [] {
      var front, last := rows[..|rows| - 1], rows[|rows| - 1];
      assert rows == front + [last];
      FoundByCode(front, p);
      FoundByCode(front, IssuedPass(last.code, p.token, p.expires));
    }
  }

  /** No two stored passes ever share a code. */
  lemma {:induction false} RunKeepsCodesApart(rows: seq<IssuedPass>, ops: seq<Op>)
    requires CodesDiffer(rows)
    ensures CodesDiffer(Run(rows, ops))
  {
    if ops != [] {
      RunKeepsCodesApart(rows, ops[..|ops| - 1]);
      var before, op := Run(rows, ops[..|ops| - 1]), ops[|ops| - 1];
      match op
      case Issue(candidates, token, expires, _) =>
        FreeIsNotFound(before, candidates, 0);
        if FirstFree(before, candidates, 0).Some? {
          var p := IssuedPass(FirstFree(before, candidates, 0).value, token, expires);
          assert (before + [p])[..|before|] == before;
        }
      case Lookup(_, at) => SweepKeepsCodes(before, at - SWEEP_GRACE);
      case Cleanup(at) => SweepKeepsCodes(before, at - SWEEP_GRACE);
    }
  }

  lemma OpKeepsPass(rows: seq<IssuedPass>, op: Op, p: IssuedPass)
    requires CodesDiffer(rows) && Find(rows, p.code) == Some(p) && op.at <= p.expires + SWEEP_GRACE
    ensures Find(Next(rows, op), p.code) == Some(p)
  {
    match op
    case Issue(candidates, token, expires, _) =>
      FreeIsNotFound(rows, candidates, 0);
      if FirstFree(rows, candidates, 0).Some? {
        var q := IssuedPass(FirstFree(rows, candidates, 0).value, token, expires);
        assert (rows + [q])[..|rows|] == rows;
      }
    case Lookup(_, at) => FindAfterSweep(rows, at - SWEEP_GRACE, p.code);
    case Cleanup(at) => FindAfterSweep(rows, at - SWEEP_GRACE, p.code);
  }

  lemma {:induction false} PassSurvives(rows: seq<IssuedPass>, ops: seq<Op>, p: IssuedPass, now: Instant)
    requires CodesDiffer(rows) && Find(rows, p.code) == Some(p)
    requires NoneAfter(ops, now) && now <= p.expires + SWEEP_GRACE
    ensures Find(Run(rows, ops), p.code) == Some(p)
  {
    if ops != [] {
      PassSurvives(rows, ops[..|ops| - 1], p, now);
      RunKeepsCodesApart(rows, ops[..|ops| - 1]);
      OpKeepsPass(Run(rows, ops[..|ops| - 1]), ops[|ops| - 1], p);
    }
  }

  lemma {:induction false} SweptAreFresh(rows: seq<IssuedPass>, cutoff: Instant, code: string)
    ensures Find(Swept(rows, cutoff), code).Some? ==> Find(Swept(rows, cutoff), code).value.expires >= cutoff
  {
    if rows != [] {
      var front, last := rows[..|rows| - 1], rows[|rows| - 1];
      SweptAreFresh(front, cutoff, code);
      assert (Swept(front, cutoff) + [last])[..|Swept(front, cutoff)|] == Swept(front, cutoff);
    }
  }

  /** Sweeping keeps exactly the rows that are not past the cutoff. */
  lemma {:induction false} SweepIsExact(rows: seq<IssuedPass>, cutoff: Instant, p: IssuedPass)
    ensures p in Swept(rows, cutoff) <==> p in rows && p.expires >= cutoff
  {
    if rows != [] {
      SweepIsExact(rows[..|rows| - 1], cutoff, p);
      assert rows == rows[..|rows| - 1] + [rows[|rows| - 1]];
    }
  }

  /** The row Lookup answers with, at a time after a run. */
  function Resolved(rows: seq<IssuedPass>, typed: string, now: Instant): Option<IssuedPass> {
    Find(Swept(rows, now - SWEEP_GRACE), Normalized(typed))
  }

  /**
   * A typed variant of a stored pass's code leads back to that pass, whatever else was issued, looked up or cleaned
   * up meanwhile, exactly until the grace after its expiry is over. Lookup's own sweep takes it after that.
   */
  lemma CodeLeadsToItsPass(rows: seq<IssuedPass>, ops: seq<Op>, p: IssuedPass, typed: string, now: Instant)
    requires CodesDiffer(rows) && p in rows && IsCode(p.code) && IsVariant(typed, p.code)
    requires NoneAfter(ops, now)
    ensures Resolved(Run(rows, ops), typed, now) == Some(p) <==> now <= p.expires + 600
  {
    FoundByCode(rows, p);
    NormalizesToCode(typed, p.code);
    SweptAreFresh(Run(rows, ops), now - SWEEP_GRACE, p.code);
    if now <= p.expires + SWEEP_GRACE {
      PassSurvives(rows, ops, p, now);
      RunKeepsCodesApart(rows, ops);
      FindAfterSweep(Run(rows, ops), now - SWEEP_GRACE, p.code);
    }
  }

  /** A pass just issued is what its code leads to, until its own expiry plus ten minutes. */
  lemma IssuedCodeLeadsBack(rows: seq<IssuedPass>, candidates: seq<string>, token: Token, expires: Instant, at: Instant,
                            code: string, typed: string, now: Instant)
    requires CodesDiffer(rows) && FirstFree(rows, candidates, 0) == Some(code) && IsCode(code) && IsVariant(typed, code)
    ensures Resolved(Next(rows, Op.Issue(candidates, token, expires, at)), typed, now) == Some(IssuedPass(code, token, expires))
            <==> now <= expires + 600
  {
    var p := IssuedPass(code, token, expires);
    FreeIsNotFound(rows, candidates, 0);
    assert (rows + [p])[..|rows|] == rows;
    CodeLeadsToItsPass(rows + [p], [], p, typed, now);
  }
}
