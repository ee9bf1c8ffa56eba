/**
 * The gateway's database module: the lazily opened connection and the
 * schema loader that splits the schema text into statements.
 */
module Database {
  import opened Types
  import opened Text
  import opened Ordering

  // ─── Splitting the schema text ─────────────────────────

  /** `s.split(';')`: n separators give n + 1 pieces, none holding a separator. */
  function Split(s: string): (r: seq<string>)
    ensures |r| >= 1
    ensures forall i :: 0 <= i < |r| ==> ';' !in r[i]
    decreases |s|
  {
    if |s| == 0 then [""]
    else
      var rest := Split(s[1..]);
      if s[0] == ';' then [""] + rest
      else [[s[0]] + rest[0]] + rest[1..]
  }

  /** Joining the pieces again gives back the schema text. */
  lemma {:induction false} JoinSplit(s: string)
    ensures JoinWith(Split(s), ";") == s
    decreases |s|
  {
    if |s| > 0 {
      JoinSplit(s[1..]);
      var rest := Split(s[1..]);
      if s[0] == ';' {
        assert ([""] + rest)[1..] == rest;
      } else {
        var r := Split(s);
        assert r[0] == [s[0]] + rest[0];
        if |rest| > 1 {
          assert r[1..] == rest[1..];
        }
      }
    }
  }

  /** There is one piece more than there are separators. */
  lemma {:induction false} SplitCount(s: string)
    ensures |Split(s)| == multiset(s)[';'] + 1
    decreases |s|
  {
    if |s| > 0 {
      SplitCount(s[1..]);
      assert s == [s[0]] + s[1..];
    }
  }

  // ─── Trimming ──────────────────────────────────────────

  /** The characters `String.prototype.trim` removes: white space and line terminators. */
  predicate IsSpace(c: char) {
    var n := c as int;
    n == 0x09 || n == 0x0A || n == 0x0B || n == 0x0C || n == 0x0D || n == 0x20
    || n == 0xA0 || n == 0x1680 || (0x2000 <= n <= 0x200A) || n == 0x2028 || n == 0x2029
    || n == 0x202F || n == 0x205F || n == 0x3000 || n == 0xFEFF
  }

  /** How many white-space characters `s` starts with. */
  function LeadingSpace(s: string): (n: nat)
    ensures n <= |s|
    ensures forall k :: 0 <= k < n ==> IsSpace(s[k])
    ensures n < |s| ==> !IsSpace(s[n])
    decreases |s|
  {
    if |s| == 0 || !IsSpace(s[0]) then 0 else 1 + LeadingSpace(s[1..])
  }

  /** How many white-space characters `s` ends with. */
  function TrailingSpace(s: string): (n: nat)
    ensures n <= |s|
    ensures forall k :: |s| - n <= k < |s| ==> IsSpace(s[k])
    ensures n < |s| ==> !IsSpace(s[|s| - 1 - n])
    decreases |s|
  {
    if |s| == 0 || !IsSpace(s[|s| - 1]) then 0 else 1 + TrailingSpace(s[..|s| - 1])
  }

  /** `s.trim()`. */
  function Trim(s: string): string {
    var t := s[LeadingSpace(s)..];
    t[..|t| - TrailingSpace(t)]
  }

  /**
   * What trimming keeps: the slice of `s` left once the white space at both
   * ends is gone; it neither starts nor ends with white space.
   */
  lemma TrimSpec(s: string)
    ensures exists i, j ::
              && 0 <= i <= j <= |s| && Trim(s) == s[i..j]
              && (forall k :: 0 <= k < i ==> IsSpace(s[k]))
              && (forall k :: j <= k < |s| ==> IsSpace(s[k]))
    ensures |Trim(s)| > 0 ==> !IsSpace(Trim(s)[0]) && !IsSpace(Trim(s)[|Trim(s)| - 1])
  {
    var i := LeadingSpace(s);
    var t := s[i..];
    var j := i + |t| - TrailingSpace(t);
    assert Trim(s) == s[i..j];
    assert forall k :: j <= k < |s| ==> s[k] == t[k - i];
    if |Trim(s)| > 0 {
      assert Trim(s)[0] == s[i];
      assert Trim(s)[|Trim(s)| - 1] == t[|t| - 1 - TrailingSpace(t)];
    }
  }

  // ─── The statement pipeline ────────────────────────────

  /** A trimmed piece survives the filter when it is not empty and not a comment. */
  predicate Kept(t: string) {
    |t| > 0 && !StartsWith(t, "--")
  }

  /** An upper-cased statement starting with PRAGMA is handled when the connection opens. */
  predicate IsPragma(t: string) {
    StartsWith(Upper(t), "PRAGMA")
  }

  function TrimAll(pieces: seq<string>): (r: seq<string>)
    ensures |r| == |pieces|
    ensures forall i :: 0 <= i < |pieces| ==> r[i] == Trim(pieces[i])
  {
    seq(|pieces|, i requires 0 <= i < |pieces| => Trim(pieces[i]))
  }

  /** `schema.split(';').map(trim).filter(…)`. */
  function Statements(schema: string): seq<string> {
    Filter(TrimAll(Split(schema)), Kept)
  }

  /** What the loop hands to the connection for a list of statements, in order. */
  function Run(statements: seq<string>): seq<string>
    decreases |statements|
  {
    if |statements| == 0 then []
    else (if IsPragma(statements[0]) then [] else [statements[0] + ";"]) + Run(statements[1..])
  }

  /** Everything the schema loader executes. */
  function Executed(schema: string): seq<string> {
    Run(Statements(schema))
  }

  lemma {:induction false} RunAppend(a: seq<string>, b: seq<string>)
    ensures Run(a + b) == Run(a) + Run(b)
    decreases |a|
  {
    if |a| == 0 {
      assert a + b == b;
    } else {
      assert (a + b)[1..] == a[1..] + b;
      RunAppend(a[1..], b);
    }
  }

  lemma RunSnoc(statements: seq<string>, i: nat)
    requires i < |statements|
    ensures Run(statements[..i + 1]) == Run(statements[..i]) + (if IsPragma(statements[i]) then [] else [statements[i] + ";"])
  {
    assert statements[..i + 1] == statements[..i] + [statements[i]];
    RunAppend(statements[..i], [statements[i]]);
    assert [statements[i]][1..] == [];
  }

  // ─── A reference definition, piece by piece ────────────

  /** A trimmed piece is executed when it is kept and is no PRAGMA. */
  predicate Accepted(t: string) {
    Kept(t) && !IsPragma(t)
  }

  /** The statements the schema yields, read off each `;`-separated piece in turn. */
  function FromPieces(pieces: seq<string>): seq<string>
    decreases |pieces|
  {
    if |pieces| == 0 then []
    else Yield(pieces[0]) + FromPieces(pieces[1..])
  }

  /** What one piece yields: its trimmed text followed by `;` when accepted, else nothing. */
  function Yield(piece: string): seq<string> {
    var t := Trim(piece);
    if Accepted(t) then [t + ";"] else []
  }

  lemma {:induction false} FromPiecesAppend(a: seq<string>, b: seq<string>)
    ensures FromPieces(a + b) == FromPieces(a) + FromPieces(b)
    decreases |a|
  {
    if |a| == 0 {
      assert a + b == b;
    } else {
      assert (a + b)[0] == a[0];
      assert (a + b)[1..] == a[1..] + b;
      FromPiecesAppend(a[1..], b);
      assert FromPieces(a + b) == Yield(a[0]) + FromPieces(a[1..] + b);
      assert Yield(a[0]) + (FromPieces(a[1..]) + FromPieces(b)) == (Yield(a[0]) + FromPieces(a[1..])) + FromPieces(b);
    }
  }

  lemma SliceAround<T>(s: seq<T>, k: nat)
    requires k < |s|
    ensures s == s[..k] + ([s[k]] + s[k + 1..])
  {
    assert s[k..] == [s[k]] + s[k + 1..];
    assert s == s[..k] + s[k..];
  }

  lemma FromPiecesCons(x: string, tail: seq<string>)
    ensures FromPieces([x] + tail) == (if Accepted(Trim(x)) then [Trim(x) + ";"] else []) + FromPieces(tail)
  {
    assert ([x] + tail)[1..] == tail;
  }

  lemma {:induction false} PipelineIsPieces(pieces: seq<string>)
    ensures Run(Filter(TrimAll(pieces), Kept)) == FromPieces(pieces)
    decreases |pieces|
  {
    if |pieces| > 0 {
      var ts := TrimAll(pieces);
      assert ts[1..] == TrimAll(pieces[1..]);
      PipelineIsPieces(pieces[1..]);
      if Kept(ts[0]) {
        var f := Filter(ts, Kept);
        assert f == [ts[0]] + Filter(ts[1..], Kept);
        assert f[1..] == Filter(ts[1..], Kept);
      }
    }
  }

  /**
   * The executed statements are exactly the trimmed pieces that are not
   * empty, no comment and no PRAGMA, each followed by `;`, in file order.
   */
  lemma ExecutedSpec(schema: string)
    ensures Executed(schema) == FromPieces(Split(schema))
    ensures forall x :: x in Executed(schema) <==>
      exists i :: 0 <= i < |Split(schema)| && Accepted(Trim(Split(schema)[i])) && x == Trim(Split(schema)[i]) + ";"
  {
    PipelineIsPieces(Split(schema));
    PiecesMembers(Split(schema));
  }

  lemma {:induction false} PiecesMembers(pieces: seq<string>)
    ensures forall x :: x in FromPieces(pieces) <==>
      exists i :: 0 <= i < |pieces| && Accepted(Trim(pieces[i])) && x == Trim(pieces[i]) + ";"
    decreases |pieces|
  {
    if |pieces| > 0 {
      PiecesMembers(pieces[1..]);
      forall x | x in FromPieces(pieces)
        ensures exists i :: 0 <= i < |pieces| && Accepted(Trim(pieces[i])) && x == Trim(pieces[i]) + ";"
      {
        if x !in FromPieces(pieces[1..]) {
          assert Accepted(Trim(pieces[0])) && x == Trim(pieces[0]) + ";";
        } else {
          var i :| 0 <= i < |pieces[1..]| && Accepted(Trim(pieces[1..][i])) && x == Trim(pieces[1..][i]) + ";";
          assert pieces[1..][i] == pieces[i + 1];
        }
      }
      forall x | exists i :: 0 <= i < |pieces| && Accepted(Trim(pieces[i])) && x == Trim(pieces[i]) + ";"
        ensures x in FromPieces(pieces)
      {
        var i :| 0 <= i < |pieces| && Accepted(Trim(pieces[i])) && x == Trim(pieces[i]) + ";";
        if i > 0 {
          assert pieces[1..][i - 1] == pieces[i];
        }
      }
    }
  }

  /**
   * A piece whose trimmed text starts with `--` contributes nothing, even
   * when SQL follows the comment line inside the same piece.
   */
  lemma CommentPieceDropped(pieces: seq<string>, k: nat)
    requires k < |pieces| && StartsWith(Trim(pieces[k]), "--")
    ensures FromPieces(pieces) == FromPieces(pieces[..k]) + FromPieces(pieces[k + 1..])
  {
    var tail := pieces[k + 1..];
    var m := [pieces[k]] + tail;
    SliceAround(pieces, k);
    FromPiecesAppend(pieces[..k], m);
    FromPiecesCons(pieces[k], tail);
  }

  // ─── The connection ────────────────────────────────────

  /** The pragmas applied when a connection is opened, in order. */
  const OpenPragmas: seq<string> := ["journal_mode = WAL", "foreign_keys = ON"]

  /** An open connection: its identity, the pragmas applied and the statements executed on it. */
  datatype Connection = Connection(serial: nat, pragmas: seq<string>, executed: seq<string>)

  /** The module-level `db` variable, and a count of the connections opened so far. */
  class DbModule {
    var db: Option<Connection>
    var openCount: nat

    /** Every connection opened so far got a serial below the count. */
    predicate Valid()
      reads this
    {
      db.Some? ==> db.value.serial < openCount
    }

    constructor()
      ensures Valid() && db.None? && openCount == 0
    {
      db := None;
      openCount := 0;
    }

    /** Opens a connection only when none is open; otherwise returns the open one. */
    method GetDb() returns (handle: nat)
      requires Valid()
      modifies this
      ensures Valid()
      ensures old(db).Some? ==> db == old(db) && handle == old(db).value.serial && openCount == old(openCount)
      ensures old(db).None? ==>
        db == Some(Connection(old(openCount), OpenPragmas, [])) && handle == old(openCount) && openCount == old(openCount) + 1
    {
      if db.None? {
        db := Some(Connection(openCount, OpenPragmas, []));
        openCount := openCount + 1;
      }
      handle := db.value.serial;
    }

    /** `database.exec(sql)` on the open connection. */
    method Exec(sql: string)
      requires Valid() && db.Some?
      modifies this
      ensures Valid()
      ensures db == Some(old(db).value.(executed := old(db).value.executed + [sql]))
      ensures openCount == old(openCount)
    {
      db := Some(db.value.(executed := db.value.executed + [sql]));
    }

    /** One statement of the loop in `initDb`: a PRAGMA is skipped, any other is executed with its `;`. */
    method RunStatement(statement: string)
      requires Valid() && db.Some?
      modifies this
      ensures Valid()
      ensures db == Some(old(db).value.(executed := old(db).value.executed +
                                         (if IsPragma(statement) then [] else [statement + ";"])))
      ensures openCount == old(openCount)
    {
      if !IsPragma(statement) {
        Exec(statement + ";");
      } else {
        assert old(db).value.executed + [] == old(db).value.executed;
      }
    }

    /** The loop of `initDb`: every statement, PRAGMAs aside, executed on the open connection in order. */
    method RunAll(statements: seq<string>)
      requires Valid() && db.Some?
      modifies this
      ensures Valid()
      ensures db == Some(old(db).value.(executed := old(db).value.executed + Run(statements)))
      ensures openCount == old(openCount)
    {
      ghost var start := db.value;
      assert statements[..0] == [];
      assert start.(executed := start.executed + Run([])) == start;
      for i := 0 to |statements|
        invariant db == Some(start.(executed := start.executed + Run(statements[..i])))
        invariant openCount == old(openCount)
        invariant Valid()
      {
        RunSnoc(statements, i);
        ghost var before := Run(statements[..i]);
        ghost var added := if IsPragma(statements[i]) then [] else [statements[i] + ";"];
        RunStatement(statements[i]);
        assert start.executed + before + added == start.executed + (before + added);
      }
      assert statements[..|statements|] == statements;
    }

    /** Runs every statement of `schema`, PRAGMAs aside, on the connection, opening one when none is open. */
    method InitDb(schema: string)
      requires Valid()
      modifies this
      ensures Valid()
      ensures db.Some?
      ensures old(db).Some? ==>
        db.value == old(db).value.(executed := old(db).value.executed + Executed(schema)) && openCount == old(openCount)
      ensures old(db).None? ==>
        db.value == Connection(old(openCount), OpenPragmas, Executed(schema)) && openCount == old(openCount) + 1
    {
      var handle := GetDb();
      RunAll(Statements(schema));
    }

    /** Closes the open connection, if any. */
    method CloseDb()
      requires Valid()
      modifies this
      ensures Valid()
      ensures db.None? && openCount == old(openCount)
    {
      if db.Some? {
        db := None;
      }
    }
  }

  /**
   * After closing, the next call opens a connection that differs from every
   * earlier one: serials are handed out in increasing order, so every
   * connection opened before the call has a serial below `old(m.openCount)`,
   * while the reopened one has a serial at least that, above `first`'s too.
   */
  method ReopenIsFresh(m: DbModule) returns (first: nat, second: nat)
    requires m.Valid()
    modifies m
    ensures first < second
    ensures old(m.openCount) <= second
    ensures first <= old(m.openCount)
    ensures m.db == Some(Connection(second, OpenPragmas, []))
    ensures second == m.openCount - 1
  {
    first := m.GetDb();
    m.CloseDb();
    second := m.GetDb();
  }
}
