/** Vocabulary shared by the services and the views of the admin panel:
 *  optional values, the outcome of an awaited HTTP call, toast notices, the
 *  few JavaScript string operations the views rely on, decimal rendering of
 *  numbers, uploaded files, and the two browser builders the code appends to
 *  (`FormData` and `URLSearchParams`). */
module Common {

  datatype Option<T> = None | Some(value: T)

  /** The outcome of one awaited call to the REST API: the response body, or a
   *  rejection carrying `err.response?.data?.message` when the server sent one. */
  datatype Remote<R> = Succeeded(body: R) | Failed(serverMessage: Option<string>)

  /** The toast a handler leaves on screen when it finishes. */
  datatype Notice = Quiet | ErrorToast(text: string) | SuccessToast(text: string)

  /** The parent callbacks a modal form invokes, in the order it invokes them. */
  datatype Callback = OnSuccess | OnClose

  /** `err.response?.data?.message || fallback`: the server's message when it
   *  is a non-empty string, the fixed fallback text otherwise. */
  function FailureText(serverMessage: Option<string>, fallback: string): (text: string)
    ensures text == fallback || (serverMessage.Some? && text == serverMessage.value)
    ensures text == fallback <==> serverMessage.None? || serverMessage.value == "" || serverMessage.value == fallback
  {
    if serverMessage.Some? && serverMessage.value != "" then serverMessage.value else fallback
  }

  // ---------------------------------------------------------------------
  // Strings: ASCII case mapping and `String.prototype.includes`
  // ---------------------------------------------------------------------

  function LowerChar(c: char): char {
    if 'A' <= c <= 'Z' then (c as int + 32) as char else c
  }

  function UpperChar(c: char): char {
    if 'a' <= c <= 'z' then (c as int - 32) as char else c
  }

  /** `s.toLowerCase()` restricted to the ASCII letters. */
  function Lower(s: string): string {
    seq(|s|, i requires 0 <= i < |s| => LowerChar(s[i]))
  }

  /** `s.toUpperCase()` restricted to the ASCII letters. */
  function Upper(s: string): string {
    seq(|s|, i requires 0 <= i < |s| => UpperChar(s[i]))
  }

  predicate StartsWith(s: string, prefix: string) {
    |prefix| <= |s| && s[..|prefix|] == prefix
  }

  /** `s.includes(t)`: `t` occurs in `s` at some offset. */
  predicate Contains(s: string, t: string)
    decreases |s|
  {
    StartsWith(s, t) || (|s| > 0 && Contains(s[1..], t))
  }

  /** `Contains` agrees with the offset definition of a substring. */
  lemma {:induction false} ContainsAt(s: string, t: string, k: nat)
    requires k + |t| <= |s| && s[k..k + |t|] == t
    ensures Contains(s, t)
    decreases k
  {
    if k > 0 {
      assert s[1..][k - 1..k - 1 + |t|] == s[k..k + |t|];
      ContainsAt(s[1..], t, k - 1);
    }
  }

  // ---------------------------------------------------------------------
  // Numbers as decimal text: `n.toString()` and `Number(s)`
  // ---------------------------------------------------------------------

  predicate AllDigits(s: string) {
    forall i :: 0 <= i < |s| ==> '0' <= s[i] <= '9'
  }

  function DigitChar(d: nat): char
    requires d < 10
  {
    ('0' as int + d) as char
  }

  /** The decimal digits of a natural number, most significant first. */
  function NatDigits(n: nat): (s: string)
    ensures |s| >= 1 && AllDigits(s)
    ensures |s| > 1 ==> s[0] != '0'
    decreases n
  {
    if n < 10 then [DigitChar(n)] else NatDigits(n / 10) + [DigitChar(n % 10)]
  }

  /** The value of a string of decimal digits ("" is 0, as `Number("")` is). */
  function DigitsValue(s: string): nat
    requires AllDigits(s)
    decreases |s|
  {
    if s == [] then 0 else DigitsValue(s[..|s| - 1]) * 10 + (s[|s| - 1] as int - '0' as int)
  }

  /** Reading back the digits of `n` gives `n`. */
  lemma {:induction false} NatDigitsRoundTrip(n: nat)
    ensures DigitsValue(NatDigits(n)) == n
    decreases n
  {
    if n >= 10 {
      var s := NatDigits(n);
      assert s[..|s| - 1] == NatDigits(n / 10);
      NatDigitsRoundTrip(n / 10);
    }
  }

  /** `n.toString()` for an integer. */
  function DecimalString(n: int): (s: string)
    ensures s != ""
  {
    if n < 0 then "-" + NatDigits(-n) else NatDigits(n)
  }

  /** A sign followed by at least one digit. */
  predicate SignedDigits(s: string) {
    |s| >= 2 && (s[0] == '-' || s[0] == '+') && AllDigits(s[1..])
  }

  /** `Number(s)` for the strings this model distinguishes: the empty string,
   *  strings of decimal digits and a sign followed by digits are numbers;
   *  everything else is `NaN` (None). */
  function NumberOf(s: string): (r: Option<int>)
    ensures r.Some? <==> AllDigits(s) || SignedDigits(s)
    ensures s == "" ==> r == Some(0)
    ensures AllDigits(s) ==> r.value >= 0
  {
    if AllDigits(s) then Some(DigitsValue(s))
    else if SignedDigits(s) then
      var magnitude: int := DigitsValue(s[1..]);
      Some(if s[0] == '-' then -magnitude else magnitude)
    else None
  }

  lemma NumberOfNegative(m: nat)
    requires m > 0
    ensures NumberOf("-" + NatDigits(m)) == Some(0 - m)
  {
    var s := "-" + NatDigits(m);
    assert s[1..] == NatDigits(m);
    assert !AllDigits(s) by { assert s[0] == '-'; }
    assert SignedDigits(s);
    NatDigitsRoundTrip(m);
  }

  /** `Number(n.toString())` gives `n` back for every integer. */
  lemma NumberOfDecimalString(n: int)
    ensures NumberOf(DecimalString(n)) == Some(n)
  {
    if n < 0 {
      NumberOfNegative(-n);
    } else {
      NatDigitsRoundTrip(n);
    }
  }

  // ---------------------------------------------------------------------
  // Form records: `{ ...formData, [name]: value }`
  // ---------------------------------------------------------------------

  /** A form-state object whose fields are all strings. */
  type Record = map<string, string>

  /** The field is present and truthy (a non-empty string). */
  predicate Filled(m: Record, key: string) {
    key in m && m[key] != ""
  }

  /** `String(formData[key])`, as `FormData.append` stores it: a missing field
   *  is `undefined` and is sent as the text "undefined". */
  function FieldText(m: Record, key: string): (text: string)
    ensures key in m ==> text == m[key]
    ensures key !in m ==> text == "undefined"
  {
    if key in m then m[key] else "undefined"
  }

  // ---------------------------------------------------------------------
  // Uploaded files and the 2 MiB limit
  // ---------------------------------------------------------------------

  /** A `File` picked in an `<input type="file">`; only its size matters here. */
  datatype File = File(name: string, size: nat)

  const MaxUploadBytes: nat := 2 * 1024 * 1024

  /** The check `file.size > 2 * 1024 * 1024` rejects; this is its negation. */
  predicate WithinUploadLimit(f: File) {
    f.size <= MaxUploadBytes
  }

  // ---------------------------------------------------------------------
  // Ordered key/value lists: FormData bodies and URL query strings
  // ---------------------------------------------------------------------

  datatype Pair<V> = Pair(key: string, value: V)

  /** A FormData value: a text field or a file. */
  datatype Part = Text(text: string) | Upload(file: File)

  type Entry = Pair<Part>
  type Param = Pair<string>

  function KeysOf<V>(es: seq<Pair<V>>): seq<string> {
    seq(|es|, i requires 0 <= i < |es| => es[i].key)
  }

  /** The entry `key = value` is part of the list. */
  predicate Sent<V(==)>(es: seq<Pair<V>>, key: string, value: V) {
    Pair(key, value) in es
  }

  /** No entry of the list has this key. */
  predicate Omitted<V>(es: seq<Pair<V>>, key: string) {
    forall i :: 0 <= i < |es| ==> es[i].key != key
  }

  predicate DistinctKeys<V>(es: seq<Pair<V>>) {
    forall i, j :: 0 <= i < j < |es| ==> es[i].key != es[j].key
  }

  /** `FormData.get` / `URLSearchParams.get`: the value of the first entry with the key. */
  function Lookup<V(==)>(es: seq<Pair<V>>, key: string): (r: Option<V>)
    ensures r.None? <==> Omitted(es, key)
    ensures r.Some? ==> Sent(es, key, r.value)
  {
    if es == [] then None
    else if es[0].key == key then Some(es[0].value)
    else Lookup(es[1..], key)
  }

  /** When keys are distinct, a sent entry is exactly what the receiver reads back. */
  lemma {:induction false} LookupSent<V>(es: seq<Pair<V>>, key: string, value: V)
    requires DistinctKeys(es) && Sent(es, key, value)
    ensures Lookup(es, key) == Some(value)
  {
    if es[0] != Pair(key, value) {
      assert Pair(key, value) in es[1..];
      LookupSent(es[1..], key, value);
    }
  }

  /** Every key of the list belongs to `ks`. */
  predicate KeysIn<V>(es: seq<Pair<V>>, ks: set<string>) {
    forall i :: 0 <= i < |es| ==> es[i].key in ks
  }

  /** Appending an entry under a key not used so far keeps the keys distinct. */
  lemma AppendFresh<V>(es: seq<Pair<V>>, ks: set<string>, p: Pair<V>)
    requires DistinctKeys(es) && KeysIn(es, ks) && p.key !in ks
    ensures DistinctKeys(es + [p]) && KeysIn(es + [p], ks + {p.key})
  {
    forall i, j | 0 <= i < j < |es + [p]| ensures (es + [p])[i].key != (es + [p])[j].key {
      if j == |es| {
        assert es[i].key in ks;
      }
    }
  }

  /** A key is absent from a concatenation exactly when it is absent from both parts. */
  lemma OmittedConcat<V>(es: seq<Pair<V>>, fs: seq<Pair<V>>, key: string)
    ensures Omitted(es + fs, key) <==> Omitted(es, key) && Omitted(fs, key)
  {
    if Omitted(es, key) && Omitted(fs, key) {
      forall i | 0 <= i < |es + fs| ensures (es + fs)[i].key != key {
        if i >= |es| {
          assert (es + fs)[i] == fs[i - |es|];
        }
      }
    }
    if Omitted(es + fs, key) {
      forall i | 0 <= i < |es| ensures es[i].key != key {
        assert (es + fs)[i] == es[i];
      }
      forall i | 0 <= i < |fs| ensures fs[i].key != key {
        assert (es + fs)[|es| + i] == fs[i];
      }
    }
  }

  lemma KeysInConcat<V>(es: seq<Pair<V>>, fs: seq<Pair<V>>, ks: set<string>)
    requires KeysIn(es, ks) && KeysIn(fs, ks)
    ensures KeysIn(es + fs, ks)
  {
    forall i | 0 <= i < |es + fs| ensures (es + fs)[i].key in ks {
      if i >= |es| {
        assert (es + fs)[i] == fs[i - |es|];
      }
    }
  }

  /** Two lists with distinct keys and no key in common concatenate to a list with distinct keys. */
  lemma DistinctConcat<V>(es: seq<Pair<V>>, fs: seq<Pair<V>>)
    requires DistinctKeys(es) && DistinctKeys(fs)
    requires forall j :: 0 <= j < |fs| ==> Omitted(es, fs[j].key)
    ensures DistinctKeys(es + fs)
  {
    forall i, j | 0 <= i < j < |es + fs| ensures (es + fs)[i].key != (es + fs)[j].key {
      if j >= |es| {
        assert (es + fs)[j] == fs[j - |es|];
        if i >= |es| {
          assert (es + fs)[i] == fs[i - |es|];
        } else {
          assert Omitted(es, fs[j - |es|].key);
        }
      }
    }
  }

  /** A prefix without the key plays no part in what `Lookup` reads back. */
  lemma {:induction false} LookupSkip<V>(es: seq<Pair<V>>, fs: seq<Pair<V>>, key: string)
    requires Omitted(es, key)
    ensures Lookup(es + fs, key) == Lookup(fs, key)
  {
    if es == [] {
      assert es + fs == fs;
    } else {
      assert (es + fs)[0] == es[0];
      assert (es + fs)[1..] == es[1..] + fs;
      LookupSkip(es[1..], fs, key);
    }
  }

  /** Appending to a list without the key makes the appended value the one read back. */
  lemma {:induction false} LookupAppendFresh<V>(es: seq<Pair<V>>, p: Pair<V>)
    requires Omitted(es, p.key)
    ensures Lookup(es + [p], p.key) == Some(p.value)
  {
    if es != [] {
      assert (es + [p])[1..] == es[1..] + [p];
      LookupAppendFresh(es[1..], p);
    }
  }

  /** A browser `FormData`: an ordered multipart body the code appends to. */
  class FormData {
    var entries: seq<Entry>

    constructor ()
      ensures entries == []
    {
      entries := [];
    }

    method Append(key: string, part: Part)
      modifies this
      ensures entries == old(entries) + [Pair(key, part)]
    {
      entries := entries + [Pair(key, part)];
    }
  }

  /** A browser `URLSearchParams`: the ordered parameters of a query string. */
  class SearchParams {
    var pairs: seq<Param>

    constructor ()
      ensures pairs == []
    {
      pairs := [];
    }

    method Append(key: string, value: string)
      modifies this
      ensures pairs == old(pairs) + [Pair(key, value)]
    {
      pairs := pairs + [Pair(key, value)];
    }
  }
}
