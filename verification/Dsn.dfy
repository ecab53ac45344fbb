/** The library address: six fields, printed as a libpq keyword/value string and split
    back into the fields (section 34.1.1.1 of the PostgreSQL 16 documentation, without
    quoting). */
module Dsn {
  import opened Types

  type Int64 = x: int | -0x8000_0000_0000_0000 <= x < 0x8000_0000_0000_0000

  datatype Library = Library(
    host: string, port: Int64, database: string, user: string, password: string, schema: string)

  const EMPTY := Library("", 0, "", "", "", "")
  const SEARCH_PATH := "-csearch_path="

  // ---- words ----

  /** unicode.IsSpace. */
  predicate IsSpace(c: char) {
    var n := c as int;
    9 <= n <= 13 || n == 32 || n == 0x85 || n == 0xA0 || n == 0x1680 || 0x2000 <= n <= 0x200A
    || n == 0x2028 || n == 0x2029 || n == 0x202F || n == 0x205F || n == 0x3000
  }

  predicate Solid(s: string) {
    forall i | 0 <= i < |s| :: !IsSpace(s[i])
  }

  /** How many characters come before the first space. */
  function Word(s: string): (n: nat)
    ensures n <= |s| && Solid(s[..n]) && (n < |s| ==> IsSpace(s[n]))
  {
    if s == [] || IsSpace(s[0]) then 0
    else
      var n := Word(s[1..]);
      assert s[..n + 1] == [s[0]] + s[1..][..n];
      n + 1
  }

  function Fields(s: string): (r: seq<string>)
    ensures forall i | 0 <= i < |r| :: r[i] != [] && Solid(r[i])
    decreases |s|
  {
    if s == [] then []
    else if IsSpace(s[0]) then Fields(s[1..])
    else [s[..Word(s)]] + Fields(s[Word(s)..])
  }

  function Join(parts: seq<string>): string {
    if parts == [] then []
    else if |parts| == 1 then parts[0]
    else parts[0] + " " + Join(parts[1..])
  }

  predicate StartsWith(s: string, p: string) {
    |p| <= |s| && s[..|p|] == p
  }

  lemma Prepended(s: string, a: string, sep: string, b: string)
    requires s != [] && s[1..] == a + sep + b
    ensures s == ([s[0]] + a) + sep + b
  {
    assert s == [s[0]] + s[1..];
  }

  /** strings.Cut: around the first occurrence of the separator. */
  function Cut(s: string, sep: string): (r: Option<(string, string)>)
    requires sep != []
    ensures r.Some? ==> s == r.value.0 + sep + r.value.1
  {
    if StartsWith(s, sep) then
      assert s == [] + sep + s[|sep|..];
      Some(([], s[|sep|..]))
    else if s == [] then None
    else
      var r := Cut(s[1..], sep);
      if r.None? then None
      else
        Prepended(s, r.value.0, sep, r.value.1);
        Some(([s[0]] + r.value.0, r.value.1))
  }

  // ---- numbers ----

  predicate IsDigit(c: char) { '0' <= c <= '9' }

  function DigitOf(c: char): nat
    requires IsDigit(c)
  {
    c as int - '0' as int
  }

  function DigitChar(n: nat): char
    requires n < 10
  {
    ('0' as int + n) as char
  }

  function Digits(n: nat): (s: string)
    ensures s != []
  {
    if n < 10 then [DigitChar(n)] else Digits(n / 10) + [DigitChar(n % 10)]
  }

  function Itoa(n: int): string {
    if n < 0 then "-" + Digits(-n) else Digits(n)
  }

  function Value(s: string): nat
    requires forall i | 0 <= i < |s| :: IsDigit(s[i])
  {
    if s == [] then 0 else 10 * Value(s[..|s|-1]) + DigitOf(s[|s|-1])
  }

  predicate AllDigits(s: string) {
    forall i | 0 <= i < |s| :: IsDigit(s[i])
  }

  /** strconv.Atoi: an optional sign, digits, and the range of an int. */
  function Atoi(s: string): Option<Int64> {
    var signed := s != [] && (s[0] == '-' || s[0] == '+');
    var body := if signed then s[1..] else s;
    if body == [] || !AllDigits(body) then None
    else
      var v: int := if signed && s[0] == '-' then -(Value(body) as int) else Value(body);
      if -0x8000_0000_0000_0000 <= v < 0x8000_0000_0000_0000 then Some(v) else None
  }

  // ---- printing and splitting ----

  function Piece(k: string, v: string): seq<string> {
    if v == "" then [] else [k + "=" + v]
  }

  function SearchPathOption(schema: string): string {
    if schema == "" then "" else SEARCH_PATH + schema
  }

  function Pieces(l: Library): seq<string> {
    Piece("host", l.host) + (if l.port > 0 then Piece("port", Itoa(l.port)) else [])
    + Piece("dbname", l.database) + Piece("user", l.user) + Piece("password", l.password)
    + Piece("options", SearchPathOption(l.schema))
  }

  function Printed(l: Library): string { Join(Pieces(l)) }

  /** One word of the string, into the field it names. */
  function Assigned(l: Library, part: string): Library {
    var kv := Cut(part, "=");
    if kv.None? || kv.value.1 == "" then l
    else
      var k, v := kv.value.0, kv.value.1;
      if k == "host" then l.(host := v)
      else if k == "port" then (if Atoi(v).Some? then l.(port := Atoi(v).value) else l)
      else if k == "dbname" then l.(database := v)
      else if k == "user" then l.(user := v)
      else if k == "password" then l.(password := v)
      else if k == "options" then
        var sp := Cut(v, SEARCH_PATH);
        if sp.Some? then l.(schema := sp.value.1) else l
      else l
  }

  function AllAssigned(l: Library, parts: seq<string>): Library
    decreases |parts|
  {
    if parts == [] then l else AllAssigned(Assigned(l, parts[0]), parts[1..])
  }

  function Parsed(l: Library, dsn: string): Library { AllAssigned(l, Fields(dsn)) }

  /** The config's address, updated in place. */
  class Config {
    var library: Library

    constructor ()
      ensures library == EMPTY
    {
      library := EMPTY;
    }

    static method Add(b: seq<string>, k: string, v: string) returns (r: seq<string>)
      ensures r == b + Piece(k, v)
    {
      if v == "" { return b; }
      return b + [k + "=" + v];
    }

    /** Empty fields are left out. */
    method ConnString() returns (s: string)
      ensures s == Printed(library)
    {
      hide Piece, Join, Itoa, SearchPathOption;
      var b: seq<string> := Add([], "host", library.host);
      assert b == Piece("host", library.host);
      if library.port > 0 { b := Add(b, "port", Itoa(library.port)); }
      b := Add(b, "dbname", library.database);
      b := Add(b, "user", library.user);
      b := Add(b, "password", library.password);
      b := Add(b, "options", SearchPathOption(library.schema));
      assert b == Pieces(library);
      return Join(b);
    }

    method SplitDsn(dsn: string)
      modifies this
      ensures library == Parsed(old(library), dsn)
    {
      var parts := Fields(dsn);
      var i := 0;
      while i < |parts|
        invariant i <= |parts|
        invariant AllAssigned(library, parts[i..]) == AllAssigned(old(library), parts)
      {
        assert parts[i..][1..] == parts[i + 1..];
        var kv := Cut(parts[i], "=");
        ghost var before := library;
        if kv.Some? && kv.value.1 != "" {
          var k, v := kv.value.0, kv.value.1;
          if k == "host" {
            library := library.(host := v);
          } else if k == "port" {
            var n := Atoi(v);
            if n.Some? { library := library.(port := n.value); }
          } else if k == "dbname" {
            library := library.(database := v);
          } else if k == "user" {
            library := library.(user := v);
          } else if k == "password" {
            library := library.(password := v);
          } else if k == "options" {
            var sp := Cut(v, SEARCH_PATH);
            if sp.Some? { library := library.(schema := sp.value.1); }
          }
        }
        assert library == Assigned(before, parts[i]);
        i := i + 1;
      }
    }
  }

  // ---- the round trip ----

  predicate AllSolid(l: Library) {
    Solid(l.host) && Solid(l.database) && Solid(l.user) && Solid(l.password) && Solid(l.schema)
  }

  lemma {:induction false} WordThenSpace(w: string, more: string)
    requires Solid(w) && (more == [] || IsSpace(more[0]))
    ensures Word(w + more) == |w|
  {
    if w == [] {
      assert w + more == more;
    } else {
      assert (w + more)[1..] == w[1..] + more;
      WordThenSpace(w[1..], more);
    }
  }

  /** Words joined by single spaces come back as they were. */
  lemma {:induction false} FieldsOfJoin(parts: seq<string>)
    requires forall i | 0 <= i < |parts| :: parts[i] != [] && Solid(parts[i])
    ensures Fields(Join(parts)) == parts
  {
    if parts != [] {
      var w := parts[0];
      var more := if |parts| == 1 then [] else " " + Join(parts[1..]);
      var s := Join(parts);
      assert s == w + more;
      WordThenSpace(w, more);
      assert s[..|w|] == w && s[|w|..] == more;
      assert s[0] == w[0];
      FieldsOfJoin(parts[1..]);
      if |parts| > 1 {
        assert more[1..] == Join(parts[1..]);
        assert IsSpace(more[0]);
      }
    }
  }

  lemma {:induction false} CutAfterKey(k: string, v: string)
    requires forall i | 0 <= i < |k| :: k[i] != '='
    ensures Cut(k + "=" + v, "=") == Some((k, v))
  {
    var s := k + "=" + v;
    if k == [] {
      assert s == "=" + v;
    } else {
      assert s[1..] == k[1..] + "=" + v;
      assert !StartsWith(s, "=") by { assert s[0] == k[0]; assert s[..1][0] == k[0]; }
      CutAfterKey(k[1..], v);
      assert [k[0]] + k[1..] == k;
    }
  }

  lemma {:induction false} DigitsBack(n: nat)
    ensures var s := Digits(n); (forall i | 0 <= i < |s| :: IsDigit(s[i])) && Value(s) == n
  {
    if n >= 10 {
      DigitsBack(n / 10);
      var s := Digits(n);
      assert s[..|s|-1] == Digits(n / 10);
    }
  }

  lemma AtoiOfItoa(n: Int64)
    requires n > 0
    ensures Atoi(Itoa(n)) == Some(n)
  {
    DigitsBack(n);
    assert IsDigit(Digits(n)[0]);
  }

  lemma {:induction false} AssignedInTurn(l: Library, a: seq<string>, b: seq<string>)
    ensures AllAssigned(l, a + b) == AllAssigned(AllAssigned(l, a), b)
    decreases |a|
  {
    if a == [] {
      assert a + b == b;
    } else {
      assert (a + b)[1..] == a[1..] + b;
      AssignedInTurn(Assigned(l, a[0]), a[1..], b);
    }
  }

  lemma SetHost(l: Library, v: string)
    ensures AllAssigned(l, Piece("host", v)) == if v == "" then l else l.(host := v)
  {
    if v != "" { CutAfterKey("host", v); OnePiece(l, "host", v); }
  }

  lemma SetPort(l: Library, n: Int64)
    requires n > 0
    ensures AllAssigned(l, Piece("port", Itoa(n))) == l.(port := n)
  {
    CutAfterKey("port", Itoa(n));
    OnePiece(l, "port", Itoa(n));
    AtoiOfItoa(n);
  }

  lemma SetDatabase(l: Library, v: string)
    ensures AllAssigned(l, Piece("dbname", v)) == if v == "" then l else l.(database := v)
  {
    if v != "" { CutAfterKey("dbname", v); OnePiece(l, "dbname", v); }
  }

  lemma SetUser(l: Library, v: string)
    ensures AllAssigned(l, Piece("user", v)) == if v == "" then l else l.(user := v)
  {
    if v != "" { CutAfterKey("user", v); OnePiece(l, "user", v); }
  }

  lemma SetPassword(l: Library, v: string)
    ensures AllAssigned(l, Piece("password", v)) == if v == "" then l else l.(password := v)
  {
    if v != "" { CutAfterKey("password", v); OnePiece(l, "password", v); }
  }

  /** The schema hides in the options, behind a keyword of its own. */
  lemma SetSchema(l: Library, v: string)
    ensures AllAssigned(l, Piece("options", SearchPathOption(v))) == if v == "" then l else l.(schema := v)
  {
    if v != "" {
      var o := SearchPathOption(v);
      CutAfterKey("options", o);
      OnePiece(l, "options", o);
      assert o[..|SEARCH_PATH|] == SEARCH_PATH && o[|SEARCH_PATH|..] == v;
      assert Cut(o, SEARCH_PATH) == Some(([], v));
    }
  }

  lemma OnePiece(l: Library, k: string, v: string)
    requires v != ""
    ensures AllAssigned(l, Piece(k, v)) == Assigned(l, k + "=" + v)
  {
    var p := Piece(k, v);
    assert AllAssigned(l, p) == AllAssigned(Assigned(l, p[0]), p[1..]);
  }

  /** What an empty config makes of the pieces, whatever the fields hold. */
  lemma PiecesAssigned(l: Library)
    ensures AllAssigned(EMPTY, Pieces(l)) == l.(port := if l.port > 0 then l.port else 0)
  {
    hide Piece, Itoa, SearchPathOption, Assigned, AllAssigned;
    var c1 := EMPTY.(host := l.host);
    SetHost(EMPTY, l.host);
    var p1 := Piece("host", l.host);
    var p2 := if l.port > 0 then Piece("port", Itoa(l.port)) else [];
    var c2 := c1.(port := if l.port > 0 then l.port else 0);
    if l.port > 0 { SetPort(c1, l.port); } else { NoPieces(c1); }
    AssignedInTurn(EMPTY, p1, p2);
    SetDatabase(c2, l.database);
    AssignedInTurn(EMPTY, p1 + p2, Piece("dbname", l.database));
    var c3 := c2.(database := l.database);
    SetUser(c3, l.user);
    AssignedInTurn(EMPTY, p1 + p2 + Piece("dbname", l.database), Piece("user", l.user));
    var c4 := c3.(user := l.user);
    SetPassword(c4, l.password);
    AssignedInTurn(EMPTY, p1 + p2 + Piece("dbname", l.database) + Piece("user", l.user), Piece("password", l.password));
    var c5 := c4.(password := l.password);
    SetSchema(c5, l.schema);
    AssignedInTurn(EMPTY, p1 + p2 + Piece("dbname", l.database) + Piece("user", l.user) + Piece("password", l.password),
                   Piece("options", SearchPathOption(l.schema)));
  }

  lemma NoPieces(l: Library)
    ensures AllAssigned(l, []) == l
  {
  }

  lemma {:induction false} DigitsSolid(n: nat)
    ensures Solid(Digits(n))
  {
    if n >= 10 { DigitsSolid(n / 10); }
  }

  lemma PieceSolid(k: string, v: string)
    requires Solid(k) && Solid(v) && k != []
    ensures forall i | 0 <= i < |Piece(k, v)| :: Piece(k, v)[i] != [] && Solid(Piece(k, v)[i])
  {
  }

  lemma PiecesSolid(l: Library)
    requires AllSolid(l)
    ensures forall i | 0 <= i < |Pieces(l)| :: Pieces(l)[i] != [] && Solid(Pieces(l)[i])
  {
    hide Piece, Itoa, SearchPathOption;
    PieceSolid("host", l.host);
    if l.port > 0 {
      PortSolid(l.port);
      PieceSolid("port", Itoa(l.port));
    }
    PieceSolid("dbname", l.database);
    PieceSolid("user", l.user);
    PieceSolid("password", l.password);
    OptionSolid(l.schema);
    PieceSolid("options", SearchPathOption(l.schema));
  }

  lemma PortSolid(n: Int64)
    requires n > 0
    ensures Solid(Itoa(n))
  {
    DigitsSolid(n);
  }

  lemma OptionSolid(schema: string)
    requires Solid(schema)
    ensures Solid(SearchPathOption(schema))
  {
  }

  /** Printed and split from an empty config, an address of whitespace-free fields comes
      back with its port, unless that is negative. */
  lemma ParsedPrinted(l: Library)
    requires AllSolid(l)
    ensures Parsed(EMPTY, Printed(l)) == l.(port := if l.port > 0 then l.port else 0)
  {
    hide Pieces, AllAssigned;
    PiecesSolid(l);
    FieldsOfJoin(Pieces(l));
    PiecesAssigned(l);
  }

  /** Splitting never puts whitespace in a field. */
  lemma {:induction false} AssignedStaysSolid(l: Library, parts: seq<string>)
    requires AllSolid(l) && forall i | 0 <= i < |parts| :: Solid(parts[i])
    ensures AllSolid(AllAssigned(l, parts))
    decreases |parts|
  {
    if parts != [] {
      OneStaysSolid(l, parts[0]);
      AssignedStaysSolid(Assigned(l, parts[0]), parts[1..]);
    }
  }

  lemma OneStaysSolid(l: Library, part: string)
    requires AllSolid(l) && Solid(part)
    ensures AllSolid(Assigned(l, part))
  {
    hide Cut;
    TailSolid(part, "=");
    var kv := Cut(part, "=");
    if kv.Some? { TailSolid(kv.value.1, SEARCH_PATH); }
  }

  lemma TailSolid(s: string, sep: string)
    requires Solid(s) && sep != []
    ensures Cut(s, sep).Some? ==> Solid(Cut(s, sep).value.1)
  {
    var r := Cut(s, sep);
    if r.Some? {
      var at := |r.value.0| + |sep|;
      forall i | 0 <= i < |r.value.1| ensures !IsSpace(r.value.1[i]) { assert r.value.1[i] == s[at + i]; }
    }
  }

  /** The address comes back exactly when its fields are free of whitespace and its port
      is not negative. */
  lemma RoundTrip(l: Library)
    ensures Parsed(EMPTY, Printed(l)) == l <==> AllSolid(l) && l.port >= 0
  {
    AssignedStaysSolid(EMPTY, Fields(Printed(l)));
    if AllSolid(l) { ParsedPrinted(l); }
  }

  /** Whatever string was split, printing and splitting again gives the same address, but
      for a negative port, which is not printed. */
  lemma SplitAgain(dsn: string)
    ensures var l := Parsed(EMPTY, dsn);
            Parsed(EMPTY, Printed(l)) == l.(port := if l.port > 0 then l.port else 0)
  {
    AssignedStaysSolid(EMPTY, Fields(dsn));
    ParsedPrinted(Parsed(EMPTY, dsn));
  }

  lemma PortUnprinted(l: Library)
    requires l.port <= 0
    ensures Printed(l.(port := 0)) == Printed(l)
  {
    hide Piece, Join;
  }

  /** What an address with every field prints as. */
  lemma PrintsAs(l: Library)
    requires l.host != "" && l.port > 0 && l.database != "" && l.user != "" && l.password != "" && l.schema != ""
    ensures Printed(l) == "host=" + l.host + " " + ("port=" + Itoa(l.port) + " " + ("dbname=" + l.database + " "
                          + ("user=" + l.user + " " + ("password=" + l.password + " "
                          + ("options=-csearch_path=" + l.schema)))))
  {
    hide Itoa, Join, Pieces;
    SixPieces(l);
    JoinSix("host=" + l.host, "port=" + Itoa(l.port), "dbname=" + l.database, "user=" + l.user,
            "password=" + l.password, "options=-csearch_path=" + l.schema);
  }

  lemma SixPieces(l: Library)
    requires l.host != "" && l.port > 0 && l.database != "" && l.user != "" && l.password != "" && l.schema != ""
    ensures Pieces(l) == ["host=" + l.host, "port=" + Itoa(l.port), "dbname=" + l.database, "user=" + l.user,
                          "password=" + l.password, "options=-csearch_path=" + l.schema]
  {
    ItoaSays(l.port);
    hide Itoa, Piece, SearchPathOption;
    OneWord("host", l.host, "host=");
    OneWord("port", Itoa(l.port), "port=");
    OneWord("dbname", l.database, "dbname=");
    OneWord("user", l.user, "user=");
    OneWord("password", l.password, "password=");
    OptionWord(l.schema);
  }

  lemma OneWord(k: string, v: string, key: string)
    requires v != "" && key == k + "="
    ensures Piece(k, v) == [key + v]
  {
  }

  lemma OptionWord(schema: string)
    requires schema != ""
    ensures Piece("options", SearchPathOption(schema)) == ["options=-csearch_path=" + schema]
  {
    assert "options" + "=" + ("-csearch_path=" + schema) == "options=-csearch_path=" + schema;
  }

  lemma ItoaSays(n: int)
    ensures Itoa(n) != ""
  {
  }

  lemma JoinSix(a: string, b: string, c: string, d: string, e: string, f: string)
    ensures Join([a, b, c, d, e, f]) == a + " " + (b + " " + (c + " " + (d + " " + (e + " " + f))))
  {
    assert [a, b, c, d, e, f][1..] == [b, c, d, e, f] && [b, c, d, e, f][1..] == [c, d, e, f];
    assert [c, d, e, f][1..] == [d, e, f] && [d, e, f][1..] == [e, f] && [e, f][1..] == [f];
    assert Join([e, f]) == e + " " + f;
    assert Join([d, e, f]) == d + " " + Join([e, f]);
    assert Join([c, d, e, f]) == c + " " + Join([d, e, f]);
    assert Join([b, c, d, e, f]) == b + " " + Join([c, d, e, f]);
  }

  lemma AtoiPlain(d: string)
    requires d != [] && AllDigits(d)
    ensures Value(d) < 0x8000_0000_0000_0000 ==> Atoi(d) == Some(Value(d)) && Atoi("+" + d) == Some(Value(d))
    ensures Value(d) <= 0x8000_0000_0000_0000 ==> Atoi("-" + d) == Some(-(Value(d) as int))
    ensures Value(d) > 0x8000_0000_0000_0000 ==> Atoi(d).None? && Atoi("+" + d).None? && Atoi("-" + d).None?
  {
    assert IsDigit(d[0]);
    assert ("+" + d)[1..] == d && ("-" + d)[1..] == d;
  }

  /** A number in plain digits, and back, whatever its sign. */
  lemma AtoiBack(n: Int64)
    ensures Atoi(Itoa(n)) == Some(n)
  {
    var m: int := n;
    if m < 0 { m := -m; }
    DigitsBack(m);
    AtoiPlain(Digits(m));
    hide Digits, Atoi;
  }

  lemma NumbersRead()
    ensures Itoa(5432) == "5432" && Itoa(0) == "0" && Itoa(-7) == "-7"
  {
    assert Digits(5) == "5";
    assert Digits(54) == "54";
    assert Digits(543) == "543";
  }

  /** What is not a number in the range of an int is none. */
  lemma AtoiRejects(s: string)
    requires Atoi(s).Some?
    ensures s != "" && '0' <= s[|s| - 1] <= '9'
    ensures forall i | 0 < i < |s| :: '0' <= s[i] <= '9'
    ensures s[0] in "+-" || '0' <= s[0] <= '9'
    ensures (s[0] == '-' ==> Atoi(s).value <= 0) && (s[0] != '-' ==> Atoi(s).value >= 0)
  {
    hide Value;
    if s[0] == '-' || s[0] == '+' {
      var body := s[1..];
      assert body != [] && AllDigits(body);
      assert forall i | 0 < i < |s| :: s[i] == body[i - 1] && IsDigit(body[i - 1]);
    } else {
      assert AllDigits(s);
      assert forall i | 0 <= i < |s| :: IsDigit(s[i]);
    }
  }

  /** What words are split at: the six of ASCII and the eighteen others of Unicode. */
  lemma SpacesAre(c: char)
    ensures IsSpace(c) <==>
              || c in " \t\n\r" || c as int in {0x0B, 0x0C, 0x85, 0xA0, 0x1680, 0x2028, 0x2029, 0x202F, 0x205F, 0x3000}
              || c as int in {0x2000, 0x2001, 0x2002, 0x2003, 0x2004, 0x2005, 0x2006, 0x2007, 0x2008, 0x2009, 0x200A}
  {
  }

  /** A word that names no field, gives no value, a port that is no number, or options
      without a search path, changes nothing. */
  lemma WordsIgnored(l: Library, k: string, v: string)
    requires forall i | 0 <= i < |k| :: k[i] != '='
    ensures v == "" || k !in ["host", "port", "dbname", "user", "password", "options"]
            || (k == "port" && Atoi(v).None?) || (k == "options" && Cut(v, "-csearch_path=").None?) ==>
              Assigned(l, k + "=" + v) == l
  {
    CutAfterKey(k, v);
    hide Cut, Atoi;
  }

  lemma NoValue(l: Library, k: string)
    requires forall i | 0 <= i < |k| :: k[i] != '='
    ensures Assigned(l, k) == l
  {
    NoCut(k);
    hide Cut, Atoi;
  }

  lemma {:induction false} NoCut(k: string)
    requires forall i | 0 <= i < |k| :: k[i] != '='
    ensures Cut(k, "=").None?
  {
    if k != [] {
      assert !StartsWith(k, "=") by { assert k[..1][0] == k[0]; }
      NoCut(k[1..]);
    }
  }

  // ---- strings that print back ----

  const KEYS: seq<string> := ["host", "port", "dbname", "user", "password", "options"]

  /** What a field prints as, behind its key; nothing when it is left out. */
  function Shown(l: Library, k: string): string {
    if k == "host" then l.host
    else if k == "port" then (if l.port > 0 then Itoa(l.port) else "")
    else if k == "dbname" then l.database
    else if k == "user" then l.user
    else if k == "password" then l.password
    else if k == "options" then SearchPathOption(l.schema)
    else ""
  }

  function PiecesFor(l: Library, keys: seq<string>): seq<string> {
    if keys == [] then [] else Piece(keys[0], Shown(l, keys[0])) + PiecesFor(l, keys[1..])
  }

  /** A word the printer could have printed for the key. */
  predicate Prints(word: string, k: string) {
    var kv := Cut(word, "=");
    && kv.Some? && kv.value.0 == k && kv.value.1 != ""
    && (k == "port" ==> Atoi(kv.value.1).Some? && Atoi(kv.value.1).value > 0
                        && Itoa(Atoi(kv.value.1).value) == kv.value.1)
    && (k == "options" ==> |kv.value.1| > |SEARCH_PATH| && StartsWith(kv.value.1, SEARCH_PATH))
  }

  /** Such words only, each key at most once, in the printer's order. */
  predicate Canonical(words: seq<string>, keys: seq<string>)
    decreases |keys|
  {
    if words == [] then true
    else if keys == [] then false
    else if Prints(words[0], keys[0]) then Canonical(words[1..], keys[1..])
    else Canonical(words, keys[1..])
  }

  predicate Distinct(keys: seq<string>) {
    && (forall i | 0 <= i < |keys| :: keys[i] in KEYS)
    && (forall i, k | 0 <= i < k < |keys| :: keys[i] != keys[k])
  }

  lemma KeysDistinct()
    ensures Distinct(KEYS)
  {
  }

  lemma PiecesStep(l: Library, k: string, keys: seq<string>)
    ensures PiecesFor(l, [k] + keys) == Piece(k, Shown(l, k)) + PiecesFor(l, keys)
  {
    assert ([k] + keys)[1..] == keys;
  }

  lemma PiecesAreFor(l: Library)
    ensures Pieces(l) == PiecesFor(l, KEYS)
  {
    PiecesStep(l, "options", []);
    PiecesStep(l, "password", ["options"]);
    PiecesStep(l, "user", ["password", "options"]);
    PiecesStep(l, "dbname", ["user", "password", "options"]);
    PiecesStep(l, "port", ["dbname", "user", "password", "options"]);
    PiecesStep(l, "host", ["port", "dbname", "user", "password", "options"]);
    NoPiece("port");
    hide Piece, Itoa, PiecesFor;
    assert PiecesFor(l, []) == [] by { NoKeys(l); }
    assert [] + ["options"] == ["options"] && ["options"] + [] == ["options"];
    assert ["password"] + ["options"] == ["password", "options"];
    assert ["user"] + ["password", "options"] == ["user", "password", "options"];
    assert ["dbname"] + ["user", "password", "options"] == ["dbname", "user", "password", "options"];
    assert ["port"] + ["dbname", "user", "password", "options"] == ["port", "dbname", "user", "password", "options"];
    assert ["host"] + ["port", "dbname", "user", "password", "options"] == KEYS;
    Regrouped(Piece("host", l.host), Piece("port", Shown(l, "port")), Piece("dbname", l.database),
              Piece("user", l.user), Piece("password", l.password), Piece("options", SearchPathOption(l.schema)));
  }

  lemma NoKeys(l: Library)
    ensures PiecesFor(l, []) == []
  {
  }

  lemma NoPiece(k: string)
    ensures Piece(k, "") == []
  {
  }

  lemma Regrouped(a: seq<string>, b: seq<string>, c: seq<string>, d: seq<string>, e: seq<string>, f: seq<string>)
    ensures a + b + c + d + e + f == a + (b + (c + (d + (e + (f + [])))))
  {
  }

  lemma KeyCuts(k: string, v: string)
    requires k in KEYS
    ensures Cut(k + "=" + v, "=") == Some((k, v))
  {
    CutAfterKey(k, v);
  }

  /** A printed piece is a word of its own key and of no other. */
  lemma PiecePrints(l: Library, k: string)
    requires k in KEYS && Shown(l, k) != ""
    ensures forall k2 | k2 in KEYS :: Prints(k + "=" + Shown(l, k), k2) <==> k2 == k
  {
    hide Cut, Atoi, Itoa;
    KeyCuts(k, Shown(l, k));
    if k == "port" { AtoiOfItoa(l.port); }
  }

  /** What is printed is canonical. */
  lemma {:induction false} PiecesCanonical(l: Library, keys: seq<string>)
    requires Distinct(keys)
    ensures var words := PiecesFor(l, keys);
            && Canonical(words, keys)
            && (words != [] ==> forall k | k in KEYS && k !in keys :: !Prints(words[0], k))
    decreases |keys|
  {
    hide Prints, Shown;
    if keys != [] {
      var k := keys[0];
      assert k in KEYS && k !in keys[1..];
      PiecesCanonical(l, keys[1..]);
      var words := PiecesFor(l, keys);
      if Shown(l, k) != "" {
        PiecePrints(l, k);
        assert words[0] == k + "=" + Shown(l, k) && words[1..] == PiecesFor(l, keys[1..]);
      } else {
        assert words == PiecesFor(l, keys[1..]);
      }
    }
  }

  /** A word the printer could have printed sets its own field to what it shows, and no
      other. */
  lemma WordShows(l: Library, word: string, k: string)
    requires k in KEYS && Prints(word, k)
    ensures Shown(Assigned(l, word), k) == Cut(word, "=").value.1
    ensures forall k2 | k2 in KEYS && k2 != k :: Shown(Assigned(l, word), k2) == Shown(l, k2)
  {
    var v := Cut(word, "=").value.1;
    if k == "options" {
      var rest := v[|SEARCH_PATH|..];
      assert v == SEARCH_PATH + rest;
      assert Cut(v, SEARCH_PATH) == Some(([], rest));
    }
    hide Cut, Atoi, Itoa;
  }

  /** Splitting canonical words gives an address that prints as them. */
  lemma {:induction false} CanonicalShows(l: Library, words: seq<string>, keys: seq<string>)
    requires Canonical(words, keys) && Distinct(keys)
    requires forall k | k in keys :: Shown(l, k) == ""
    ensures PiecesFor(AllAssigned(l, words), keys) == words
    ensures forall k | k in KEYS && k !in keys :: Shown(AllAssigned(l, words), k) == Shown(l, k)
    decreases |keys|
  {
    hide Prints, Shown, Assigned;
    if keys != [] {
      var k, more := keys[0], keys[1..];
      assert k in KEYS && k !in more;
      if words == [] {
        CanonicalShows(l, words, more);
      } else if Prints(words[0], k) {
        WordShows(l, words[0], k);
        CanonicalShows(Assigned(l, words[0]), words[1..], more);
        KeyedWord(words[0], k);
      } else {
        CanonicalShows(l, words, more);
      }
    }
  }

  lemma KeyedWord(word: string, k: string)
    requires Prints(word, k)
    ensures Piece(k, Cut(word, "=").value.1) == [word]
  {
    hide Atoi, Itoa;
  }

  /** Splitting a string and printing the address gives the string back exactly when it is
      single-spaced and its words are ones the printer prints, each key at most once and in
      the printer's order. */
  lemma PrintsBack(s: string)
    ensures Printed(Parsed(EMPTY, s)) == s <==> s == Join(Fields(s)) && Canonical(Fields(s), KEYS)
  {
    hide Join, Fields, AllAssigned, Canonical, PiecesFor, Pieces;
    var l := Parsed(EMPTY, s);
    AssignedStaysSolid(EMPTY, Fields(s));
    PiecesAreFor(l);
    KeysDistinct();
    if Printed(l) == s {
      PiecesSolid(l);
      FieldsOfJoin(Pieces(l));
      PiecesCanonical(l, KEYS);
    }
    if s == Join(Fields(s)) && Canonical(Fields(s), KEYS) {
      EmptyShows();
      CanonicalShows(EMPTY, Fields(s), KEYS);
    }
  }

  lemma EmptyShows()
    ensures forall k | k in KEYS :: Shown(EMPTY, k) == ""
    ensures AllSolid(EMPTY)
  {
  }

  /** Printing what was read back prints the same string, whatever the fields hold, exactly
      when the string is such a one; so always for an address free of whitespace. */
  lemma PrintedAgain(l: Library)
    ensures var s := Printed(l);
            Printed(Parsed(EMPTY, s)) == s <==> s == Join(Fields(s)) && Canonical(Fields(s), KEYS)
    ensures AllSolid(l) ==> Printed(Parsed(EMPTY, Printed(l))) == Printed(l)
  {
    hide Printed, Fields, Join, Canonical, AllSolid, AllAssigned;
    PrintsBack(Printed(l));
    if AllSolid(l) {
      ParsedPrinted(l);
      if l.port <= 0 { PortUnprinted(l); }
    }
  }
}
