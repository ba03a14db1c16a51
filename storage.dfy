/**
 * The browser's `localStorage`: a key-value store from strings to strings,
 * shared by the session reducer and the request gateway, together with the
 * JavaScript conversions between the integers the application writes and
 * the strings the store keeps.
 */
module Storage {
  import opened Wrappers

  type Store = map<string, string>

  /** The three keys the session lifecycle keeps in the store. */
  const AccessTokenKey := "accessToken"
  const ExpiresInKey := "expiresIn"
  const ExpirationKey := "expirationSeconds"
  const TokenKeys: set<string> := {AccessTokenKey, ExpiresInKey, ExpirationKey}

  /** `localStorage.getItem(key)`: the stored string, or null. */
  function Get(m: Store, key: string): Option<string> {
    if key in m then Some(m[key]) else None
  }

  /** A `{ key, value }` record as the session reducer hands them to the store. */
  datatype Item = Item(key: string, value: string)

  function KeysOf(items: seq<Item>): set<string> {
    set i | 0 <= i < |items| :: items[i].key
  }

  /** The store after `setItem(key, value)` for every item, first to last. */
  function SaveAll(m: Store, items: seq<Item>): (r: Store)
    ensures r.Keys == m.Keys + KeysOf(items)
    ensures forall k :: k in m && k !in KeysOf(items) ==> r[k] == m[k]
    decreases |items|
  {
    if items == [] then m
    else
      var last := items[|items| - 1];
      assert KeysOf(items) == KeysOf(items[..|items| - 1]) + {last.key} by {
        assert forall i | 0 <= i < |items| - 1 :: items[..|items| - 1][i] == items[i];
      }
      SaveAll(m, items[..|items| - 1])[last.key := last.value]
  }

  /** The last write to a key wins: an item that no later item overwrites is what the store holds. */
  lemma {:induction false} SaveAllLastWins(m: Store, items: seq<Item>, i: nat)
    requires i < |items|
    requires forall j | i < j < |items| :: items[j].key != items[i].key
    ensures items[i].key in SaveAll(m, items)
    ensures SaveAll(m, items)[items[i].key] == items[i].value
    decreases |items|
  {
    if i < |items| - 1 {
      var init := items[..|items| - 1];
      assert init[i] == items[i];
      SaveAllLastWins(m, init, i);
    }
  }

  /** The store with every listed key removed (`removeItem` for each key). */
  function RemoveAll(m: Store, keys: seq<string>): (r: Store)
    ensures r.Keys == m.Keys - KeySet(keys)
    ensures forall k :: k in r ==> r[k] == m[k]
  {
    m - KeySet(keys)
  }

  function KeySet(keys: seq<string>): set<string> {
    set k | k in keys
  }

  /** `localStorage` itself: one mutable map, changed key by key. */
  class LocalStorage {
    var items: Store

    constructor (initial: Store)
      ensures items == initial
    {
      items := initial;
    }

    method GetItem(key: string) returns (r: Option<string>)
      ensures r == Get(items, key)
    {
      r := if key in items then Some(items[key]) else None;
    }

    method SetItem(key: string, value: string)
      modifies this
      ensures items == old(items)[key := value]
    {
      items := items[key := value];
    }

    method RemoveItem(key: string)
      modifies this
      ensures items == old(items) - {key}
    {
      items := items - {key};
    }
  }

  // ---------------------------------------------------------------------
  // Integers as the store's strings. `setItem` turns a number into its
  // decimal text (`String(n)`); arithmetic on a stored string turns it back
  // with JavaScript's `Number(...)` coercion, which yields NaN for text that
  // is not a number, such as "undefined".

  datatype Numeric = Num(n: int) | NaN

  predicate IsDigit(c: char) {
    '0' <= c <= '9'
  }

  function DigitChar(d: nat): (c: char)
    requires d < 10
    ensures IsDigit(c)
  {
    "0123456789"[d]
  }

  function DigitValue(c: char): (d: nat)
    requires IsDigit(c)
    ensures d < 10
  {
    c as int - '0' as int
  }

  /** Decimal text of a natural number, most significant digit first. */
  function NatToString(n: nat): (s: string)
    ensures |s| > 0
    ensures forall i | 0 <= i < |s| :: IsDigit(s[i])
    decreases n
  {
    if n < 10 then [DigitChar(n)] else NatToString(n / 10) + [DigitChar(n % 10)]
  }

  /** `String(i)` for an integer: an optional minus sign and the decimal digits. */
  function IntToString(i: int): (s: string)
    ensures |s| > 0
  {
    if i < 0 then "-" + NatToString(-i) else NatToString(i)
  }

  /** The value of a non-empty run of decimal digits; None for anything else. */
  function ParseDigits(s: string): Option<nat>
    decreases |s|
  {
    if |s| == 0 || !IsDigit(s[|s| - 1]) then None
    else if |s| == 1 then Some(DigitValue(s[0]))
    else
      match ParseDigits(s[..|s| - 1])
      case None => None
      case Some(p) => Some(p * 10 + DigitValue(s[|s| - 1]))
  }

  /**
   * `Number(v)` for a stored item: null and the empty string are 0, an
   * optional minus sign followed by decimal digits is that integer, and
   * anything else is NaN.
   */
  function ToNumber(v: Option<string>): Numeric {
    match v
    case None => Num(0)
    case Some(s) =>
      if s == "" then Num(0)
      else if s[0] == '-' then
        match ParseDigits(s[1..])
        case Some(n) => Num(-(n as int))
        case None => NaN
      else
        match ParseDigits(s)
        case Some(n) => Num(n)
        case None => NaN
  }

  lemma DigitRoundTrip(d: nat)
    requires d < 10
    ensures DigitValue(DigitChar(d)) == d
  {
  }

  /** Reading back the decimal text of a natural number gives the number. */
  lemma {:induction false} ParseNatToString(n: nat)
    ensures ParseDigits(NatToString(n)) == Some(n)
    decreases n
  {
    DigitRoundTrip(n % 10);
    if n >= 10 {
      var s := NatToString(n);
      assert s[..|s| - 1] == NatToString(n / 10);
      ParseNatToString(n / 10);
    }
  }

  /** `Number("")` is 0, like `Number(null)`. */
  lemma EmptyIsZero()
    ensures ToNumber(Some("")) == Num(0) && ToNumber(None) == Num(0)
  {
  }

  /** A number written with `setItem` reads back as the same number. */
  lemma ToNumberIntToString(i: int)
    ensures ToNumber(Some(IntToString(i))) == Num(i)
  {
    var s := IntToString(i);
    if i < 0 {
      assert s[1..] == NatToString(-i);
      ParseNatToString(-i);
    } else {
      assert IsDigit(s[0]);
      ParseNatToString(i);
    }
  }
}
