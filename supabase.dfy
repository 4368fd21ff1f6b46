/**
 * The client-side row converters: database rows use snake_case column
 * names, the application uses camelCase, and `fromDb`/`toDb` copy a row
 * into a fresh object under the converted names.
 */
module Supabase {
  import opened Common
  import opened Records

  /** `str.replace(/_([a-z])/g, c => c.toUpperCase())`: scanned left to right, matches do not overlap. */
  function SnakeToCamel(s: string): string {
    if s == [] then []
    else if |s| >= 2 && s[0] == '_' && IsAsciiLower(s[1]) then [ToUpperAscii(s[1])] + SnakeToCamel(s[2..])
    else [s[0]] + SnakeToCamel(s[1..])
  }

  /** `str.replace(/[A-Z]/g, c => '_' + c.toLowerCase())`. */
  function CamelToSnake(s: string): string {
    if s == [] then []
    else if IsAsciiUpper(s[0]) then ['_', ToLowerAscii(s[0])] + CamelToSnake(s[1..])
    else [s[0]] + CamelToSnake(s[1..])
  }

  /** The converter works character by character, so it distributes over concatenation. */
  lemma {:induction false} CamelToSnakeAppend(a: string, b: string)
    ensures CamelToSnake(a + b) == CamelToSnake(a) + CamelToSnake(b)
  {
    if a == [] {
      assert a + b == b;
    } else {
      assert (a + b)[1..] == a[1..] + b;
      CamelToSnakeAppend(a[1..], b);
    }
  }

  predicate NoAsciiUpper(s: string) {
    forall i :: 0 <= i < |s| ==> !IsAsciiUpper(s[i])
  }

  /** No "_" directly followed by a lowercase ASCII letter: nothing for `SnakeToCamel` to match. */
  predicate NoSnakeJoint(s: string) {
    forall i :: 0 <= i < |s| - 1 ==> !(s[i] == '_' && IsAsciiLower(s[i + 1]))
  }

  /** The snake form has no capitals left. */
  lemma {:induction false} CamelToSnakeLowers(s: string)
    ensures NoAsciiUpper(CamelToSnake(s))
  {
    if s != [] {
      CamelToSnakeLowers(s[1..]);
    }
  }

  /** The camel form has no "_" + lowercase left when the input had no capitals after an underscore. */
  lemma {:induction false} CamelToSnakeFixes(s: string)
    requires NoAsciiUpper(s)
    ensures CamelToSnake(s) == s
  {
    if s != [] {
      CamelToSnakeFixes(s[1..]);
    }
  }

  lemma {:induction false} SnakeToCamelFixes(s: string)
    requires NoSnakeJoint(s)
    ensures SnakeToCamel(s) == s
  {
    if s != [] {
      SnakeToCamelFixes(s[1..]);
    }
  }

  /** A name with neither capitals nor "_"+lowercase ("id", "status") is a fixed point of both converters. */
  lemma PlainNameFixed(s: string)
    requires NoAsciiUpper(s) && NoSnakeJoint(s)
    ensures CamelToSnake(s) == s && SnakeToCamel(s) == s
  {
    CamelToSnakeFixes(s);
    SnakeToCamelFixes(s);
  }

  /** Back from snake case: every capital became "_" + lowercase, which `SnakeToCamel` turns back. */
  lemma {:induction false} SnakeOfCamelRoundTrip(s: string)
    requires NoSnakeJoint(s)
    ensures SnakeToCamel(CamelToSnake(s)) == s
  {
    if s != [] {
      var rest := s[1..];
      assert NoSnakeJoint(rest) by {
        forall i | 0 <= i < |rest| - 1 ensures !(rest[i] == '_' && IsAsciiLower(rest[i + 1])) {
          assert rest[i] == s[i + 1] && rest[i + 1] == s[i + 2];
        }
      }
      SnakeOfCamelRoundTrip(rest);
      var t := CamelToSnake(rest);
      if IsAsciiUpper(s[0]) {
        assert (['_', ToLowerAscii(s[0])] + t)[2..] == t;
      } else if s[0] == '_' {
        assert |s| >= 2 ==> !IsAsciiLower(s[1]);
        assert t != [] ==> !IsAsciiLower(t[0]);
        assert ([s[0]] + t)[1..] == t;
      } else {
        assert ([s[0]] + t)[1..] == t;
      }
    }
  }

  /** To snake case and back: the column names of the database come back unchanged. */
  lemma {:induction false} CamelOfSnakeRoundTrip(s: string)
    requires NoAsciiUpper(s)
    ensures CamelToSnake(SnakeToCamel(s)) == s
  {
    if s != [] {
      if |s| >= 2 && s[0] == '_' && IsAsciiLower(s[1]) {
        CamelOfSnakeRoundTrip(s[2..]);
        var t := SnakeToCamel(s[2..]);
        assert ([ToUpperAscii(s[1])] + t)[1..] == t;
        assert s == ['_', s[1]] + s[2..];
      } else {
        CamelOfSnakeRoundTrip(s[1..]);
        var t := SnakeToCamel(s[1..]);
        assert ([s[0]] + t)[1..] == t;
      }
    }
  }

  /** The object a copy loop builds: `result[f(key)] = value` for each entry in order. */
  function Renamed(row: Record, f: string -> string): Record {
    if row == [] then [] else Assign(Renamed(row[..|row| - 1], f), f(row[|row| - 1].0), row[|row| - 1].1)
  }

  /** `f` sends distinct keys of the row to distinct names. */
  predicate InjectiveOn(row: Record, f: string -> string) {
    forall i, j :: 0 <= i < j < |row| ==> f(row[i].0) != f(row[j].0)
  }

  /** When the renaming keeps keys apart, the copy has every entry, renamed, in order, with its value kept. */
  lemma {:induction false} RenamedPointwise(row: Record, f: string -> string)
    requires InjectiveOn(row, f)
    ensures var r := Renamed(row, f);
      UniqueKeys(r) && |r| == |row| && forall i :: 0 <= i < |row| ==> r[i] == (f(row[i].0), row[i].1)
    decreases |row|
  {
    if row != [] {
      var init := row[..|row| - 1];
      var last := row[|row| - 1];
      assert InjectiveOn(init, f) by {
        forall i, j | 0 <= i < j < |init| ensures f(init[i].0) != f(init[j].0) {
          assert init[i] == row[i] && init[j] == row[j];
        }
      }
      RenamedPointwise(init, f);
      var r0 := Renamed(init, f);
      var k := f(last.0);
      assert k !in Keys(r0) by {
        forall i | 0 <= i < |r0| ensures Keys(r0)[i] != k {
          assert r0[i] == (f(row[i].0), row[i].1);
        }
      }
      AssignAppends(r0, k, last.1);
      SnocPointwise(row, f, r0);
    }
  }

  /** The renamed entries of all but the last, then the last one renamed, are the row renamed entry by entry, keys kept apart. */
  lemma SnocPointwise(row: Record, f: string -> string, r0: Record)
    requires row != [] && InjectiveOn(row, f) && |r0| == |row| - 1
    requires forall i :: 0 <= i < |r0| ==> r0[i] == (f(row[i].0), row[i].1)
    ensures var r := r0 + [(f(row[|row| - 1].0), row[|row| - 1].1)];
      UniqueKeys(r) && |r| == |row| && forall i :: 0 <= i < |row| ==> r[i] == (f(row[i].0), row[i].1)
  {
    var r := r0 + [(f(row[|row| - 1].0), row[|row| - 1].1)];
    forall i | 0 <= i < |row| ensures r[i] == (f(row[i].0), row[i].1) {
      if i < |r0| {
        assert r[i] == r0[i];
      }
    }
    forall i, j | 0 <= i < j < |r| ensures r[i].0 != r[j].0 {
      assert r[i].0 == f(row[i].0) && r[j].0 == f(row[j].0);
    }
  }

  /** The copy of a row one entry longer: the copy of the row, then that entry set under its new name. */
  lemma RenamedSnoc(row: Record, e: (string, Value), f: string -> string)
    ensures Renamed(row + [e], f) == Assign(Renamed(row, f), f(e.0), e.1)
  {
    assert (row + [e])[..|row|] == row;
  }

  /** Every key of the copy is the new name of a key of the row. */
  lemma {:induction false} RenamedKeys(row: Record, f: string -> string)
    ensures forall x :: x in Keys(Renamed(row, f)) ==> exists e :: e in row && x == f(e.0)
    decreases |row|
  {
    if row != [] {
      var init := row[..|row| - 1];
      RenamedKeys(init, f);
      AssignKeys(Renamed(init, f), f(row[|row| - 1].0), row[|row| - 1].1);
      assert forall e :: e in init ==> e in row;
    }
  }

  /** The copy loop. */
  method RenameKeys(row: Record, f: string -> string) returns (result: Record)
    ensures result == Renamed(row, f)
  {
    result := [];
    var i := 0;
    while i < |row|
      invariant 0 <= i <= |row|
      invariant result == Renamed(row[..i], f)
    {
      assert row[..i + 1][..i] == row[..i];
      result := Assign(result, f(row[i].0), row[i].1);
      i := i + 1;
    }
    assert row[..|row|] == row;
  }

  /** `fromDb`: a row under camelCase names. */
  method FromDb(row: Record) returns (result: Record)
    ensures result == Renamed(row, SnakeToCamel)
  {
    result := RenameKeys(row, SnakeToCamel);
  }

  /** `toDb`: an object under snake_case names. */
  method ToDb(obj: Record) returns (result: Record)
    ensures result == Renamed(obj, CamelToSnake)
  {
    result := RenameKeys(obj, CamelToSnake);
  }

  /** A row whose column names have no capitals comes back entry for entry, renamed, values kept. */
  lemma FromDbKeepsEntries(row: Record)
    requires UniqueKeys(row) && forall e :: e in row ==> NoAsciiUpper(e.0)
    ensures var r := Renamed(row, SnakeToCamel);
      |r| == |row| && forall i :: 0 <= i < |row| ==> r[i] == (SnakeToCamel(row[i].0), row[i].1)
  {
    forall i, j | 0 <= i < j < |row| ensures SnakeToCamel(row[i].0) != SnakeToCamel(row[j].0) {
      assert row[i] in row && row[j] in row;
      CamelOfSnakeRoundTrip(row[i].0);
      CamelOfSnakeRoundTrip(row[j].0);
    }
    RenamedPointwise(row, SnakeToCamel);
  }

  /** An object whose keys have no "_"+lowercase goes to the database entry for entry, renamed, values kept. */
  lemma ToDbKeepsEntries(obj: Record)
    requires UniqueKeys(obj) && forall e :: e in obj ==> NoSnakeJoint(e.0)
    ensures var r := Renamed(obj, CamelToSnake);
      |r| == |obj| && forall i :: 0 <= i < |obj| ==> r[i] == (CamelToSnake(obj[i].0), obj[i].1)
  {
    forall i, j | 0 <= i < j < |obj| ensures CamelToSnake(obj[i].0) != CamelToSnake(obj[j].0) {
      assert obj[i] in obj && obj[j] in obj;
      SnakeOfCamelRoundTrip(obj[i].0);
      SnakeOfCamelRoundTrip(obj[j].0);
    }
    RenamedPointwise(obj, CamelToSnake);
  }

  /** `fromDbArray`: every row converted, same length, same order. */
  method FromDbArray(rows: seq<Record>) returns (result: seq<Record>)
    ensures |result| == |rows| && forall i :: 0 <= i < |rows| ==> result[i] == Renamed(rows[i], SnakeToCamel)
  {
    result := [];
    var i := 0;
    while i < |rows|
      invariant 0 <= i <= |rows|
      invariant |result| == i && forall j :: 0 <= j < i ==> result[j] == Renamed(rows[j], SnakeToCamel)
    {
      var r := FromDb(rows[i]);
      result := result + [r];
      i := i + 1;
    }
  }

  /** A PostgREST error as the client receives it. */
  datatype DbError = DbError(message: string, code: Option<string>, details: Option<string>)

  /**
   * `handleSupabaseError`: it never returns normally; the caller sees a thrown error with the same message.
   * The thrown `SupabaseError` also carries the `code` and `details` of `e`; the model's error keeps only
   * the message, which is all the modelled callers read.
   */
  function HandleSupabaseError<T>(e: DbError): (r: Result<T>)
    ensures r.Err? && r.message == e.message
  {
    Err(e.message)
  }
}

/** The snake-case names of the keys the edge functions write. */
module KeyNames {
  import opened Common
  import Supabase

  /** A word without capitals, one capital, and a tail without capitals: the capital becomes "_" + lowercase. */
  lemma CapitalJoint(a: string, c: char, b: string)
    requires Supabase.NoAsciiUpper(a) && Supabase.NoAsciiUpper(b) && IsAsciiUpper(c)
    ensures Supabase.CamelToSnake(a + [c] + b) == a + ['_', ToLowerAscii(c)] + b
  {
    assert a + [c] + b == a + ([c] + b);
    Supabase.CamelToSnakeAppend(a, [c] + b);
    Supabase.CamelToSnakeFixes(a);
    Supabase.CamelToSnakeFixes(b);
    assert ([c] + b)[0] == c && ([c] + b)[1..] == b;
    assert a + ['_', ToLowerAscii(c)] + b == a + (['_', ToLowerAscii(c)] + b);
  }

  lemma OrganizationIdName()
    ensures Supabase.CamelToSnake("organizationId") == "organization_id"
  {
    CapitalJoint("organization", 'I', "d");
    assert "organization" + ['I'] + "d" == "organizationId";
    assert "organization" + ['_', 'i'] + "d" == "organization_id";
  }

  lemma DriverIdName()
    ensures Supabase.CamelToSnake("driverId") == "driver_id"
  {
    CapitalJoint("driver", 'I', "d");
    assert "driver" + ['I'] + "d" == "driverId";
    assert "driver" + ['_', 'i'] + "d" == "driver_id";
  }

  lemma SubmittedViaName()
    ensures Supabase.CamelToSnake("submittedVia") == "submitted_via"
  {
    CapitalJoint("submitted", 'V', "ia");
    assert "submitted" + ['V'] + "ia" == "submittedVia";
    assert "submitted" + ['_', 'v'] + "ia" == "submitted_via";
  }
}
