/** Repair of invalid backslash escapes, so that a strict JSON reader accepts
    what a lenient one would have understood. */
module JsonEscapes {
  import opened OperationStore

  /** The escapes of RFC 8259, section 7, that need no look-ahead. */
  predicate Simple(c: char) {
    c == '"' || c == '\\' || c == '/' || c == 'b' || c == 'f' || c == 'n' || c == 'r' || c == 't'
  }

  predicate Hex(c: char) { '0' <= c <= '9' || 'a' <= c <= 'f' || 'A' <= c <= 'F' }

  /** A genuine four-digit unicode escape at the front. */
  predicate UnicodeFirst(s: string) {
    |s| >= 6 && s[0] == '\\' && s[1] == 'u' && Hex(s[2]) && Hex(s[3]) && Hex(s[4]) && Hex(s[5])
  }

  predicate SimpleFirst(s: string) { |s| >= 2 && s[0] == '\\' && Simple(s[1]) }

  const BACKSLASH := "\\\\"

  /** What replaces the front of the text, and how much of it is replaced. */
  function Piece(s: string): string
    requires s != ""
  {
    if s[0] != '\\' || |s| == 1 then [s[0]]
    else if UnicodeFirst(s) then s[..6]
    else if SimpleFirst(s) then s[..2]
    else if s[1] == '\'' then "'"
    else BACKSLASH
  }

  function Width(s: string): (k: nat)
    requires s != ""
    ensures 0 < k <= |s|
  {
    if s[0] != '\\' || |s| == 1 then 1
    else if UnicodeFirst(s) then 6
    else if SimpleFirst(s) || s[1] == '\'' then 2
    else 1
  }

  function Repair(s: string): string {
    if s == "" then "" else Piece(s) + Repair(s[Width(s)..])
  }

  predicate AllHex(s: string) { forall k | 0 <= k < |s| :: Hex(s[k]) }

  lemma SliceIsUnicode(raw: string, i: nat)
    requires i + 1 < |raw| && raw[i] == '\\' && raw[i + 1] == 'u'
    ensures UnicodeFirst(raw[i..]) <==> i + 5 < |raw| && AllHex(raw[i + 2..i + 6])
  {
    if i + 5 < |raw| {
      var rest, digits := raw[i..], raw[i + 2..i + 6];
      assert forall k | 0 <= k < 4 :: digits[k] == rest[k + 2];
    }
  }

  lemma Advance(raw: string, i: nat, out: string, piece: string, k: nat)
    requires i < |raw| && Repair(raw) == out + Repair(raw[i..])
    requires piece == Piece(raw[i..]) && k == Width(raw[i..])
    ensures i + k <= |raw| && Repair(raw) == out + piece + Repair(raw[i + k..])
  {
    assert raw[i..][k..] == raw[i + k..];
    assert out + (piece + Repair(raw[i + k..])) == out + piece + Repair(raw[i + k..]);
  }

  /** The character pass as it runs. */
  method RepairJson(raw: string) returns (out: string)
    ensures out == Repair(raw)
  {
    out := "";
    var i := 0;
    while i < |raw|
      invariant i <= |raw|
      invariant Repair(raw) == out + Repair(raw[i..])
    {
      hide Repair, Hex, Simple;
      var piece, k := [raw[i]], 1;
      if raw[i] == '\\' && i + 1 < |raw| {
        var next := raw[i + 1];
        if next == 'u' {
          SliceIsUnicode(raw, i);
          if i + 5 < |raw| && AllHex(raw[i + 2..i + 6]) {
            piece, k := [raw[i]] + [next] + raw[i + 2..i + 6], 6;
          } else {
            piece := BACKSLASH;
          }
        } else if Simple(next) {
          piece, k := [raw[i]] + [next], 2;
        } else if next == '\'' {
          piece, k := "'", 2;
        } else {
          piece := BACKSLASH;
        }
      }
      PieceAt(raw, i, piece, k);
      Advance(raw, i, out, piece, k);
      out, i := out + piece, i + k;
    }
    assert raw[i..] == "";
  }

  lemma PieceAt(raw: string, i: nat, piece: string, k: nat)
    requires i < |raw|
    requires var escape := raw[i] == '\\' && i + 1 < |raw|;
             if !escape then piece == [raw[i]] && k == 1
             else if UnicodeFirst(raw[i..]) then i + 5 < |raw| && piece == [raw[i]] + [raw[i + 1]] + raw[i + 2..i + 6] && k == 6
             else if Simple(raw[i + 1]) then piece == [raw[i]] + [raw[i + 1]] && k == 2
             else if raw[i + 1] == '\'' then piece == "'" && k == 2
             else piece == BACKSLASH && k == 1
    ensures piece == Piece(raw[i..]) && k == Width(raw[i..])
  {
    var rest := raw[i..];
    assert rest[0] == raw[i] && (i + 1 < |raw| ==> rest[1] == raw[i + 1]);
    if |rest| >= 2 { assert rest[..2] == [raw[i]] + [raw[i + 1]]; }
    if |rest| >= 6 {
      var six := [raw[i]] + [raw[i + 1]] + raw[i + 2..i + 6];
      forall k | 0 <= k < 6 ensures rest[k] == six[k] { }
      assert rest[..6] == six;
    }
  }

  // ----------------------------------------------------------------- meaning

  datatype Symbol = Plain(c: char) | Escape(c: char) | Unicode(digits: string)

  function Add(x: Symbol, rest: Option<seq<Symbol>>): Option<seq<Symbol>> {
    if rest.Some? then Some([x] + rest.value) else None
  }

  /** A strict reader: every backslash must start an escape of RFC 8259. */
  function Strict(s: string): Option<seq<Symbol>> {
    if s == "" then Some([])
    else if s[0] != '\\' then Add(Plain(s[0]), Strict(s[1..]))
    else if UnicodeFirst(s) then Add(Unicode(s[2..6]), Strict(s[6..]))
    else if SimpleFirst(s) then Add(Escape(s[1]), Strict(s[2..]))
    else None
  }

  /** What the writer meant: a genuine escape is itself, an escaped single quote
      is a quote, and any other backslash is a backslash.  Only a backslash
      with nothing after it means nothing. */
  function Meant(s: string): Option<seq<Symbol>> {
    if s == "" then Some([])
    else if s[0] != '\\' then Add(Plain(s[0]), Meant(s[1..]))
    else if |s| == 1 then None
    else if UnicodeFirst(s) then Add(Unicode(s[2..6]), Meant(s[6..]))
    else if SimpleFirst(s) then Add(Escape(s[1]), Meant(s[2..]))
    else if s[1] == '\'' then Add(Plain('\''), Meant(s[2..]))
    else Add(Escape('\\'), Meant(s[1..]))
  }

  /** The strict reader gets from the repaired text exactly what was meant, and
      refuses it only where nothing was. */
  lemma {:induction false} RepairKeepsMeaning(s: string)
    ensures Strict(Repair(s)) == Meant(s)
  {
    var r := Repair(s);
    if s == "" {
    } else if s[0] != '\\' || |s| == 1 {
      RepairKeepsMeaning(s[1..]);
      assert r[1..] == Repair(s[1..]);
    } else if UnicodeFirst(s) {
      RepairKeepsMeaning(s[6..]);
      assert r[6..] == Repair(s[6..]) && forall k | 0 <= k < 6 :: r[k] == s[k];
      assert r[2..6] == s[2..6];
    } else if SimpleFirst(s) {
      RepairKeepsMeaning(s[2..]);
      assert r[2..] == Repair(s[2..]) && r[1] == s[1];
    } else if s[1] == '\'' {
      RepairKeepsMeaning(s[2..]);
      assert r[1..] == Repair(s[2..]);
    } else {
      RepairKeepsMeaning(s[1..]);
      assert r[2..] == Repair(s[1..]) && r[1] == '\\';
    }
  }

  /** Every backslash starts an escape, except a lone one at the very end. */
  predicate Normal(s: string) {
    if s == "" then true
    else if s[0] != '\\' || |s| == 1 then Normal(s[1..])
    else if UnicodeFirst(s) then Normal(s[6..])
    else SimpleFirst(s) && Normal(s[2..])
  }

  lemma {:induction false} RepairIsNormal(s: string)
    ensures Normal(Repair(s)) && |Repair(s)| <= 2 * |s|
  {
    var r := Repair(s);
    if s == "" {
    } else if s[0] != '\\' || |s| == 1 {
      RepairIsNormal(s[1..]);
      assert r[1..] == Repair(s[1..]);
      assert |s| == 1 ==> s[1..] == "";
    } else if UnicodeFirst(s) {
      RepairIsNormal(s[6..]);
      assert r[6..] == Repair(s[6..]) && forall k | 0 <= k < 6 :: r[k] == s[k];
    } else if SimpleFirst(s) {
      RepairIsNormal(s[2..]);
      assert r[2..] == Repair(s[2..]) && r[1] == s[1];
    } else if s[1] == '\'' {
      RepairIsNormal(s[2..]);
      assert r[1..] == Repair(s[2..]);
    } else {
      RepairIsNormal(s[1..]);
      assert r[2..] == Repair(s[1..]) && r[1] == '\\';
    }
  }

  lemma {:induction false} NormalIsKept(s: string)
    requires Normal(s)
    ensures Repair(s) == s
  {
    if s == "" {
    } else if s[0] != '\\' || |s| == 1 {
      NormalIsKept(s[1..]);
    } else if UnicodeFirst(s) {
      NormalIsKept(s[6..]);
      assert s == s[..6] + s[6..];
    } else {
      NormalIsKept(s[2..]);
      assert s == s[..2] + s[2..];
    }
  }

  /** Nothing is changed exactly when nothing is wrong, and once is enough. */
  lemma RepairIsANormaliser(s: string)
    ensures Repair(s) == s <==> Normal(s)
    ensures Repair(Repair(s)) == Repair(s)
  {
    RepairIsNormal(s);
    NormalIsKept(Repair(s));
    if Normal(s) { NormalIsKept(s); }
  }
}
