/** The dynamically typed values the pipeline passes around (decoded model
    replies, the market-data bundle, the result dictionaries) and the Python
    operations the core applies to them: `d.get(k, default)`, truthiness and
    `x or {}`, `len`, slicing, `str()` and `int()`. Operations that raise in
    Python return `Err`. */
module JsonValues {
  import opened Text

  /** A JSON-compatible Python value. Dictionaries keep insertion order, as
      Python's do. Numbers are integers only. */
  datatype Json =
    | JNull
    | JBool(b: bool)
    | JInt(i: int)
    | JStr(s: string)
    | JList(items: seq<Json>)
    | JObj(fields: seq<(string, Json)>)

  /** The Python exception a faulting operation raises. */
  datatype Fault =
    | AttributeError(detail: string)  // `.get`/`.startswith` on a value without it
    | TypeError(detail: string)       // len, slice, iterate or hash an unsuitable value
    | ValueError(detail: string)      // `int()` of a string that is not a number

  datatype Result<+T> = Ok(value: T) | Err(fault: Fault) {
    predicate IsFailure() {
      Err?
    }

    function PropagateFailure<U>(): Result<U>
      requires Err?
    {
      Err(fault)
    }

    function Extract(): T
      requires Ok?
    {
      value
    }
  }

  const EmptyDict := JObj([])
  const EmptyList := JList([])

  /** Value stored under `key` (the first entry holding it). */
  function Lookup(fields: seq<(string, Json)>, key: string): (r: Option<Json>)
    ensures r.Some? ==> |fields| > 0
  {
    if |fields| == 0 then None
    else if fields[0].0 == key then Some(fields[0].1)
    else Lookup(fields[1..], key)
  }

  /** A lookup fails exactly when no entry has the key, and succeeds with
      the value of an entry that has it. */
  lemma {:induction false} LookupSpec(fields: seq<(string, Json)>, key: string)
    ensures Lookup(fields, key).None? <==> forall i :: 0 <= i < |fields| ==> fields[i].0 != key
    ensures Lookup(fields, key).Some? ==>
              exists i :: 0 <= i < |fields| && fields[i] == (key, Lookup(fields, key).value)
  {
    if |fields| > 0 && fields[0].0 != key {
      LookupSpec(fields[1..], key);
      if Lookup(fields, key).Some? {
        var i :| 0 <= i < |fields[1..]| && fields[1..][i] == (key, Lookup(fields, key).value);
        assert fields[i + 1] == fields[1..][i];
      }
      if Lookup(fields, key).None? {
        forall i | 1 <= i < |fields| ensures fields[i].0 != key {
          assert fields[i] == fields[1..][i - 1];
        }
      }
    }
  }

  /** A lookup finds the first entry with the key. */
  lemma {:induction false} LookupFirst(fields: seq<(string, Json)>, i: nat, key: string)
    requires i < |fields| && fields[i].0 == key
    requires forall j :: 0 <= j < i ==> fields[j].0 != key
    ensures Lookup(fields, key) == Some(fields[i].1)
  {
    if i > 0 {
      forall j | 0 <= j < i - 1 ensures fields[1..][j].0 != key {
        assert fields[1..][j] == fields[j + 1];
      }
      LookupFirst(fields[1..], i - 1, key);
    }
  }

  /** An entry added after every entry of its key is what a lookup of that key finds. */
  lemma LookupAppended(fields: seq<(string, Json)>, entry: (string, Json))
    requires Lookup(fields, entry.0).None?
    ensures Lookup(fields + [entry], entry.0) == Some(entry.1)
  {
    LookupSpec(fields, entry.0);
    LookupFirst(fields + [entry], |fields|, entry.0);
  }

  /** Adding an entry at the end leaves every present key's lookup alone. */
  lemma LookupsKept(fields: seq<(string, Json)>, entry: (string, Json))
    ensures forall key {:trigger Lookup(fields, key)} ::
              Lookup(fields, key).Some? ==> Lookup(fields + [entry], key) == Lookup(fields, key)
  {
    forall key | Lookup(fields, key).Some?
      ensures Lookup(fields + [entry], key) == Lookup(fields, key)
    {
      LookupExtended(fields, entry, key);
    }
  }

  /** Adding an entry at the end leaves the lookup of a present key alone. */
  lemma {:induction false} LookupExtended(fields: seq<(string, Json)>, entry: (string, Json), key: string)
    requires Lookup(fields, key).Some?
    ensures Lookup(fields + [entry], key) == Lookup(fields, key)
  {
    if fields[0].0 != key {
      assert (fields + [entry])[1..] == fields[1..] + [entry];
      LookupExtended(fields[1..], entry, key);
    }
  }

  /** The keys of a dictionary, in insertion order. */
  function Keys(fields: seq<(string, Json)>): (r: seq<string>)
    ensures |r| == |fields|
    ensures forall i :: 0 <= i < |r| ==> r[i] == fields[i].0
  {
    seq(|fields|, i requires 0 <= i < |fields| => fields[i].0)
  }

  /** Python's `d.get(key, default)`; a receiver that is not a dict raises. */
  function Get(d: Json, key: string, default: Json): (r: Result<Json>)
    ensures r.Err? <==> !d.JObj?
    ensures d.JObj? && |d.fields| > 0 && d.fields[0].0 == key ==> r == Ok(d.fields[0].1)
  {
    match d
    case JObj(fields) =>
      (match Lookup(fields, key) case Some(v) => Ok(v) case None => Ok(default))
    case _ => Err(AttributeError("get"))
  }

  /** Python truthiness. */
  predicate Truthy(v: Json) {
    match v
    case JNull => false
    case JBool(b) => b
    case JInt(i) => i != 0
    case JStr(s) => s != ""
    case JList(items) => items != []
    case JObj(fields) => fields != []
  }

  /** Python's `v or fallback`. */
  function Or(v: Json, fallback: Json): (r: Json)
    ensures Truthy(v) ==> r == v
    ensures !Truthy(v) ==> r == fallback
  {
    if Truthy(v) then v else fallback
  }

  /** `d.get(key, empty) or empty`: a missing key and every falsy value
      (None, {}, [], "", 0, False) give `empty`. */
  function GetOr(d: Json, key: string, empty: Json): (r: Result<Json>)
    ensures r.Err? <==> !d.JObj?
    ensures r.Ok? && r.value != empty ==> Truthy(r.value)
    ensures d.JObj? && Lookup(d.fields, key) == Some(JNull) ==> r == Ok(empty)
  {
    match Get(d, key, empty)
    case Ok(v) => Ok(Or(v, empty))
    case Err(f) => Err(f)
  }

  /** Python's `len(v)`. */
  function Len(v: Json): (r: Result<nat>)
    ensures r.Ok? <==> v.JStr? || v.JList? || v.JObj?
  {
    match v
    case JStr(s) => Ok(|s|)
    case JList(items) => Ok(|items|)
    case JObj(fields) => Ok(|fields|)
    case _ => Err(TypeError("len"))
  }

  /** `v[-n:] if len(v) > n else v`: the last `n` items of a list (or
      characters of a string), in their original order. */
  function LastItems(v: Json, n: nat): (r: Result<Json>)
    ensures v.JList? ==> r.Ok? && r.value.JList?
    ensures v.JList? && |v.items| <= n ==> r == Ok(v)
    ensures v.JList? && |v.items| > n ==> r == Ok(JList(v.items[|v.items| - n..]))
    ensures r.Ok? <==> v.JList? || v.JStr? || (v.JObj? && |v.fields| <= n)
  {
    match Len(v)
    case Err(f) => Err(f)
    case Ok(len) =>
      if len > n then
        (match v
         case JList(items) => Ok(JList(items[len - n..]))
         case JStr(s) => Ok(JStr(s[len - n..]))
         case _ => Err(TypeError("slice")))
      else Ok(v)
  }

  /** `v[:n]`: the first `n` items of a list (or characters of a string). */
  function FirstItems(v: Json, n: nat): (r: Result<Json>)
    ensures v.JList? ==> r.Ok? && r.value.JList?
    ensures v.JList? && |v.items| <= n ==> r == Ok(v)
    ensures v.JList? && |v.items| > n ==> r == Ok(JList(v.items[..n]))
    ensures !(v.JList? || v.JStr?) ==> r.Err?
  {
    match v
    case JList(items) => Ok(JList(if |items| > n then items[..n] else items))
    case JStr(s) => Ok(JStr(if |s| > n then s[..n] else s))
    case _ => Err(TypeError("slice"))
  }

  /** Python's `str(v)`, as an f-string shows `v`. */
  function Str(v: Json): string {
    match v
    case JStr(s) => s
    case _ => Repr(v)
  }

  /** Python's `repr(v)`. */
  function Repr(v: Json): string
    decreases v
  {
    match v
    case JNull => "None"
    case JBool(b) => if b then "True" else "False"
    case JInt(i) => IntToDecimal(i)
    case JStr(s) => StrRepr(s)
    case JList(items) =>
      "[" + Join(seq(|items|, k requires 0 <= k < |items| => Repr(items[k])), ", ") + "]"
    case JObj(fields) =>
      "{" + Join(seq(|fields|, k requires 0 <= k < |fields| =>
                   StrRepr(fields[k].0) + ": " + Repr(fields[k].1)), ", ") + "}"
  }

  /** The quote `repr` puts around `s`: double quotes when `s` holds a
      single quote and no double quote, single quotes otherwise. */
  function QuoteFor(s: string): (q: char)
    ensures q == '\'' || q == '"'
  {
    if '\'' in s && '"' !in s then '"' else '\''
  }

  /** Python's `repr(s)` for a string: quoted with `QuoteFor(s)`, each
      character escaped as `EscapeChar` says. */
  function StrRepr(s: string): string {
    var q := QuoteFor(s);
    [q] + Escaped(s, q) + [q]
  }

  function Escaped(s: string, q: char): string
    requires q == '\'' || q == '"'
    decreases |s|
  {
    if s == [] then "" else EscapeChar(s[0], q) + Escaped(s[1..], q)
  }

  /** One character of a string's `repr` inside quote `q`: the backslash and
      the quote itself are backslashed, tab, newline and carriage return
      become `\t`, `\n`, `\r`, the other control characters and DEL become
      `\xhh`, and every other character stands for itself. */
  function EscapeChar(c: char, q: char): (e: string)
    requires q == '\'' || q == '"'
    ensures |e| >= 1
    ensures forall k :: 0 <= k < |e| ==> !(e[k] < ' ')
    ensures QuotesEscaped(e, q)
    ensures e == [c] <==> !(c == '\\' || c == q || c < ' ' || c == '\U{7F}')
  {
    if c == '\\' || c == q then ['\\', c]
    else if c == '\t' then "\\t"
    else if c == '\n' then "\\n"
    else if c == '\r' then "\\r"
    else if c < ' ' || c == '\U{7F}' then "\\x" + [HexDigit(c as int / 16), HexDigit(c as int % 16)]
    else [c]
  }

  /** A lower-case hexadecimal digit. */
  function HexDigit(d: nat): (c: char)
    requires d < 16
    ensures '0' <= c <= 'f'
  {
    "0123456789abcdef"[d]
  }

  /** Every occurrence of `q` in `e` comes right after a backslash, so `q`
      cannot close a string literal early. */
  predicate QuotesEscaped(e: string, q: char) {
    forall k :: 0 <= k < |e| && e[k] == q ==> k > 0 && e[k - 1] == '\\'
  }

  lemma QuotesEscapedAppend(a: string, b: string, q: char)
    requires QuotesEscaped(a, q) && QuotesEscaped(b, q)
    ensures QuotesEscaped(a + b, q)
  {
    forall k | 0 <= k < |a + b| && (a + b)[k] == q
      ensures k > 0 && (a + b)[k - 1] == '\\'
    {
      if k >= |a| {
        assert b[k - |a|] == q;
      }
    }
  }

  /** The text between the quotes of a string's `repr` has no control
      character, and every quote character in it is escaped. */
  lemma {:induction false} EscapedShape(s: string, q: char)
    requires q == '\'' || q == '"'
    ensures forall k :: 0 <= k < |Escaped(s, q)| ==> !(Escaped(s, q)[k] < ' ')
    ensures QuotesEscaped(Escaped(s, q), q)
    decreases |s|
  {
    if s != [] {
      EscapedShape(s[1..], q);
      QuotesEscapedAppend(EscapeChar(s[0], q), Escaped(s[1..], q), q);
    }
  }

  /** A string without quotes, backslashes or control characters is shown
      between single quotes as it is. */
  lemma {:induction false} PlainStrRepr(s: string)
    requires forall k :: 0 <= k < |s| ==> !(s[k] in "'\"\\" || s[k] < ' ' || s[k] == '\U{7F}')
    ensures StrRepr(s) == "'" + s + "'"
  {
    PlainEscaped(s, '\'');
  }

  lemma {:induction false} PlainEscaped(s: string, q: char)
    requires q == '\'' || q == '"'
    requires forall k :: 0 <= k < |s| ==> !(s[k] in "'\"\\" || s[k] < ' ' || s[k] == '\U{7F}')
    ensures Escaped(s, q) == s
    decreases |s|
  {
    if s != [] {
      PlainEscaped(s[1..], q);
      assert s == [s[0]] + s[1..];
    }
  }

  /** A value's `str()` has no newline unless the value is itself a string
      holding one: `repr` escapes every newline inside a list or dict. */
  lemma {:induction false} ReprHasNoNewline(v: Json)
    ensures '\n' !in Repr(v)
    decreases v
  {
    match v
    case JNull =>
    case JBool(b) =>
    case JInt(i) =>
      var r := IntToDecimal(i);
      assert forall k :: 0 <= k < |r| ==> r[k] != '\n';
    case JStr(s) =>
      StrReprHasNoNewline(s);
    case JList(items) =>
      var parts := seq(|items|, k requires 0 <= k < |items| => Repr(items[k]));
      forall k | 0 <= k < |parts|
        ensures '\n' !in parts[k]
      {
        ReprHasNoNewline(items[k]);
      }
      JoinLacks(parts, ", ", '\n');
    case JObj(fields) =>
      var parts := seq(|fields|, k requires 0 <= k < |fields| => StrRepr(fields[k].0) + ": " + Repr(fields[k].1));
      forall k | 0 <= k < |parts|
        ensures '\n' !in parts[k]
      {
        assert fields[k].1 < v;
        ReprHasNoNewline(fields[k].1);
        StrReprHasNoNewline(fields[k].0);
      }
      JoinLacks(parts, ", ", '\n');
  }

  lemma StrReprHasNoNewline(s: string)
    ensures '\n' !in StrRepr(s)
  {
    EscapedShape(s, QuoteFor(s));
  }

  /** `str(v)` of a non-string has no newline. */
  lemma StrHasNoNewline(v: Json)
    requires !v.JStr?
    ensures '\n' !in Str(v)
  {
    ReprHasNoNewline(v);
  }

  /** Digits `0`-`9` only, at least one. */
  predicate AllDigits(s: string) {
    |s| > 0 && forall k :: 0 <= k < |s| ==> '0' <= s[k] <= '9'
  }

  /** The value of a string of decimal digits. */
  function DigitsValue(s: string): (n: nat)
    requires forall k :: 0 <= k < |s| ==> '0' <= s[k] <= '9'
  {
    if |s| == 0 then 0 else 10 * DigitsValue(s[..|s| - 1]) + (s[|s| - 1] as int - '0' as int)
  }

  /** Python's `int(s)` for a string: surrounding whitespace, an optional sign,
      then ASCII digits. */
  function ParseInt(s: string): (r: Option<int>)
  {
    var t := Strip(s);
    if |t| > 0 && (t[0] == '-' || t[0] == '+') then
      (if AllDigits(t[1..]) then
         var n: int := DigitsValue(t[1..]);
         Some(if t[0] == '-' then -n else n)
       else None)
    else if AllDigits(t) then Some(DigitsValue(t))
    else None
  }

  /** Python's `int(v)`: `None` stands for the exception it raises. */
  function ToInt(v: Json): (r: Option<int>)
    ensures v.JInt? ==> r == Some(v.i)
    ensures v.JNull? || v.JList? || v.JObj? ==> r.None?
  {
    match v
    case JInt(i) => Some(i)
    case JBool(b) => Some(if b then 1 else 0)
    case JStr(s) => ParseInt(s)
    case _ => None
  }

  lemma {:induction false} DigitsOfNat(n: nat)
    ensures DigitsValue(NatToDecimal(n)) == n
  {
    var r := NatToDecimal(n);
    if n >= 10 {
      DigitsOfNat(n / 10);
      assert r[..|r| - 1] == NatToDecimal(n / 10);
    }
  }

  /** A digit or a minus sign is not whitespace. */
  lemma DecimalNotSpace(c: char)
    requires '0' <= c <= '9' || c == '-'
    ensures !IsSpace(c)
  {
  }

  /** `int(str(n)) == n` for a natural number. */
  lemma NatRoundTrip(n: nat)
    ensures ParseInt(NatToDecimal(n)) == Some(n)
  {
    var t := NatToDecimal(n);
    DecimalNotSpace(t[0]);
    DecimalNotSpace(t[|t| - 1]);
    StrippedFixed(t);
    DigitsOfNat(n);
    assert AllDigits(t);
  }

  /** A minus sign followed by digits parses to the negated digit value. */
  lemma NegativeParse(d: string)
    requires |d| > 0 && AllDigits(d)
    ensures ParseInt("-" + d) == Some(-(DigitsValue(d) as int))
  {
    var t := "-" + d;
    assert t[|t| - 1] == d[|d| - 1];
    DecimalNotSpace(t[0]);
    DecimalNotSpace(t[|t| - 1]);
    StrippedFixed(t);
    NegatedParse(t, d);
  }

  /** An unpadded minus sign followed by digits parses to the negated digit
      value. */
  lemma NegatedParse(t: string, d: string)
    requires Strip(t) == t && t == "-" + d && AllDigits(d)
    ensures ParseInt(t) == Some(-(DigitsValue(d) as int))
  {
    assert t[0] == '-' && t[1..] == d;
  }

  /** `int(str(i)) == i`: the decimal text of an integer parses back to it. */
  lemma IntRoundTrip(i: int)
    ensures ParseInt(IntToDecimal(i)) == Some(i)
  {
    if i < 0 {
      NegativeRoundTrip(-i);
    } else {
      NatRoundTrip(i);
    }
  }

  /** `int(str(-n)) == -n` for a positive number. */
  lemma NegativeRoundTrip(n: nat)
    requires n > 0
    ensures ParseInt(IntToDecimal(-(n as int))) == Some(-(n as int))
  {
    var s := NatToDecimal(n);
    assert IntToDecimal(-(n as int)) == "-" + s;
    DigitsOfNat(n);
    NegativeParse(s);
  }

  /** `int(str(v))` gives back an integer value. */
  lemma StrRoundTrip(i: int)
    ensures ToInt(JStr(Str(JInt(i)))) == Some(i)
  {
    assert Str(JInt(i)) == IntToDecimal(i);
    IntRoundTrip(i);
  }
}
