/**
 * Rows: the open-schema records both delivery components work on.
 *
 * A row (a pandas row turned into a dict, or the `record` object of a
 * replayed queue message) is an ordered sequence of key/value fields, the
 * way a Python dict keeps its insertion order. Values are a small tagged
 * union; `Render` is Python's `str()` on them.
 */
module Rows {

  datatype Option<+T> = None | Some(value: T) {
    function GetOr(default: T): T {
      match this
      case Some(v) => v
      case None => default
    }
  }

  /** Text that is never empty: Python's `str()` of a float is always at least one character. */
  type NonEmptyString = s: string | |s| > 0 witness "0"

  /**
   * The text `str()` gives for a float other than NaN: "nan" is excluded, so
   * that NaN has the one form `Value.NaN`.
   */
  type FloatText = s: string | |s| > 0 && s != "nan" witness "0"

  /**
   * A field value. `Null` is Python's None, `NaN` the float NaN pandas uses
   * for a missing cell, `Float` any other float, kept as the text `str()`
   * gives for it (floating point itself is not modelled), and `Decimal` a
   * `decimal.Decimal`, kept as its text; a Decimal NaN, which `pd.isna`
   * would also treat as missing, is not modelled.
   */
  datatype Value =
    | Null
    | NaN
    | Bool(b: bool)
    | Int(i: int)
    | Float(repr: FloatText)
    | Decimal(digits: NonEmptyString)
    | Text(s: string)

  datatype Field = Field(key: string, val: Value)

  type Row = seq<Field>

  /** A row is a dict: no key occurs twice. */
  predicate IsDict(row: Row) {
    forall i, j :: 0 <= i < j < |row| ==> row[i].key != row[j].key
  }

  /** The rows that are dicts. */
  type Dict = row: Row | IsDict(row) witness []

  /** `row.get(k)`: the value stored under `k`, if any. */
  function Lookup(row: Row, k: string): (r: Option<Value>)
    ensures r.Some? <==> exists i :: 0 <= i < |row| && row[i].key == k
    ensures r.Some? ==> Field(k, r.value) in row
  {
    if row == [] then None
    else if row[0].key == k then Some(row[0].val)
    else Lookup(row[1..], k)
  }

  /** In a dict, the field at position `i` is what a lookup of its key finds. */
  lemma {:induction false} LookupAt(row: Row, i: nat)
    requires IsDict(row) && i < |row|
    ensures Lookup(row, row[i].key) == Some(row[i].val)
  {
    if i > 0 {
      assert IsDict(row[1..]) by {
        forall a, b | 0 <= a < b < |row[1..]| ensures row[1..][a].key != row[1..][b].key {
          assert row[1..][a] == row[a + 1] && row[1..][b] == row[b + 1];
        }
      }
      assert row[0].key != row[i].key;
      LookupAt(row[1..], i - 1);
    }
  }

  // ---------------------------------------------------------------------
  // str(): the text Python prints for a value
  // ---------------------------------------------------------------------

  function DigitChar(d: nat): char
    requires d < 10
  {
    "0123456789"[d]
  }

  function CharDigit(c: char): nat {
    if '0' <= c <= '9' then (c - '0') as nat else 0
  }

  /** Decimal digits of a natural number, most significant first, as `str()` prints them. */
  function NatToString(n: nat): (s: string)
    ensures |s| > 0
    ensures forall i :: 0 <= i < |s| ==> '0' <= s[i] <= '9'
  {
    if n < 10 then [DigitChar(n)] else NatToString(n / 10) + [DigitChar(n % 10)]
  }

  /** The value of a string of decimal digits. */
  function DigitsValue(s: string): nat {
    if s == [] then 0 else 10 * DigitsValue(s[..|s| - 1]) + CharDigit(s[|s| - 1])
  }

  /** Reading back the digits `str()` printed gives the number again. */
  lemma {:induction false} NatToStringRoundTrip(n: nat)
    ensures DigitsValue(NatToString(n)) == n
  {
    var s := NatToString(n);
    if n < 10 {
      assert s[..|s| - 1] == [];
    } else {
      assert s[..|s| - 1] == NatToString(n / 10);
      NatToStringRoundTrip(n / 10);
    }
  }

  function IntToString(i: int): (s: string)
    ensures |s| > 0
  {
    if i < 0 then "-" + NatToString(-i) else NatToString(i)
  }

  /** Python's `str(v)`. */
  function Render(v: Value): string {
    match v
    case Null => "None"
    case NaN => "nan"
    case Bool(b) => if b then "True" else "False"
    case Int(i) => IntToString(i)
    case Float(repr) => repr
    case Decimal(digits) => digits
    case Text(s) => s
  }

  /** `str(v)` is empty exactly for the empty string: every other value prints at least one character. */
  lemma RenderEmptyIff(v: Value)
    ensures Render(v) == "" <==> v == Text("")
  {
  }

  // ---------------------------------------------------------------------
  // pd.isna
  // ---------------------------------------------------------------------

  /** `pd.isna(v)` on a scalar: None and NaN are "no data". */
  predicate IsNa(v: Value) {
    v.Null? || v.NaN?
  }
}
