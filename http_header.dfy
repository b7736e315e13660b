/**
 * The part of Go's `net/http.Header` that request building relies on:
 * a map from canonical header names to lists of values, where `Set`
 * stores under the canonical form of the name and replaces any earlier
 * values, and lookups canonicalise the name they are given.
 */
module HttpHeader {

  type Header = map<string, seq<string>>

  /** A "tchar" of RFC 7230 section 3.2.6: the characters allowed in a header name. */
  predicate IsTokenChar(c: char)
  {
    || ('a' <= c <= 'z') || ('A' <= c <= 'Z') || ('0' <= c <= '9')
    || c == '!' || c == '#' || c == '$' || c == '%' || c == '&' || c == '\'' || c == '*'
    || c == '+' || c == '-' || c == '.' || c == '^' || c == '_' || c == '`' || c == '|' || c == '~'
  }

  predicate IsToken(s: string)
  {
    forall i | 0 <= i < |s| :: IsTokenChar(s[i])
  }

  function ToUpper(c: char): char
  {
    if 'a' <= c <= 'z' then (c as int - 32) as char else c
  }

  function ToLower(c: char): char
  {
    if 'A' <= c <= 'Z' then (c as int + 32) as char else c
  }

  /** Position i begins a word of the name: it is the first, or follows a hyphen. */
  predicate StartsWord(s: string, i: int)
    requires 0 <= i < |s|
  {
    i == 0 || s[i - 1] == '-'
  }

  /**
   * The canonical form of a header name (Go's `CanonicalMIMEHeaderKey`):
   * the first letter and every letter following a hyphen upper-case, all
   * others lower-case. A name holding a character outside the token set
   * is returned unchanged.
   */
  function CanonicalKey(s: string): (k: string)
    ensures |k| == |s|
    ensures forall i | 0 <= i < |s| :: (k[i] == '-') == (s[i] == '-')
  {
    if IsToken(s) then
      seq(|s|, i requires 0 <= i < |s| => if StartsWord(s, i) then ToUpper(s[i]) else ToLower(s[i]))
    else
      s
  }

  /** Changing the case of a letter keeps it a token character, and a second change is a no-op. */
  lemma CaseChange(c: char)
    ensures IsTokenChar(c) ==> IsTokenChar(ToUpper(c)) && IsTokenChar(ToLower(c))
    ensures ToUpper(ToUpper(c)) == ToUpper(c) && ToLower(ToLower(c)) == ToLower(c)
    ensures ToUpper(ToLower(c)) == ToUpper(c) && ToLower(ToUpper(c)) == ToLower(c)
  {
  }

  /** Canonicalising a canonical name changes nothing. */
  lemma CanonicalKeyIdempotent(s: string)
    ensures CanonicalKey(CanonicalKey(s)) == CanonicalKey(s)
  {
    if IsToken(s) {
      var k := CanonicalKey(s);
      assert IsToken(k) by {
        forall i | 0 <= i < |k| ensures IsTokenChar(k[i]) {
          CaseChange(s[i]);
        }
      }
      var kk := CanonicalKey(k);
      assert |kk| == |k|;
      forall i | 0 <= i < |k| ensures kk[i] == k[i] {
        CaseChange(s[i]);
      }
    }
  }

  /** A token name whose letters are cased as the canonical rule asks is its own canonical form. */
  lemma CanonicalKeyOf(s: string, k: string)
    requires IsToken(s) && |k| == |s|
    requires forall i | 0 <= i < |s| :: k[i] == (if StartsWord(s, i) then ToUpper(s[i]) else ToLower(s[i]))
    ensures CanonicalKey(s) == k
  {
    var c := CanonicalKey(s);
    forall i | 0 <= i < |s| ensures c[i] == k[i] {
      assert c[i] == if StartsWord(s, i) then ToUpper(s[i]) else ToLower(s[i]);
      assert k[i] == if StartsWord(s, i) then ToUpper(s[i]) else ToLower(s[i]);
    }
  }

  /** `Header.Set`: the canonical name now maps to exactly `[value]`. */
  function Set(h: Header, key: string, value: string): (h': Header)
    ensures h'.Keys == h.Keys + {CanonicalKey(key)}
  {
    h[CanonicalKey(key) := [value]]
  }

  /** `Header.Values`: every value stored for the name, none when absent. */
  function Values(h: Header, key: string): seq<string>
  {
    if CanonicalKey(key) in h then h[CanonicalKey(key)] else []
  }

  /** `Header.Get`: the first value stored for the name, "" when there is none. */
  function Get(h: Header, key: string): string
  {
    var vs := Values(h, key);
    if vs == [] then "" else vs[0]
  }

  /** Whether some entry is stored under the name. */
  predicate Has(h: Header, key: string)
  {
    CanonicalKey(key) in h
  }

  /** After `Set`, the name reads back as the one value set. */
  lemma SetThenGet(h: Header, key: string, value: string)
    ensures Has(Set(h, key, value), key)
    ensures Values(Set(h, key, value), key) == [value]
    ensures Get(Set(h, key, value), key) == value
  {
  }

  /** `Set` leaves every other canonical name as it was. */
  lemma SetKeepsOthers(h: Header, key: string, value: string, other: string)
    requires CanonicalKey(other) != CanonicalKey(key)
    ensures Has(Set(h, key, value), other) == Has(h, other)
    ensures Values(Set(h, key, value), other) == Values(h, other)
  {
  }
}
