/** Values and string operations shared by the back end (Python) and the
    front end (TypeScript) models. */
module Common {

  datatype Option<+T> = None | Some(value: T)

  /** What a Python service call raises: FastAPI's HTTPException (a status
      code and a detail text), or any other exception (its `str()`). */
  datatype Failure = HttpException(status: int, detail: string) | Exception(text: string)

  /** The outcome of a service call: a value, or the exception it raised. */
  datatype Result<+T> = Ok(value: T) | Err(error: Failure)

  /** What a `requests.get(...)` followed by `raise_for_status()` and
      `.json()` ends in.  The network is not modelled: the reply is an input. */
  datatype Reply<+T> =
    | Success(body: T)
    | StatusError(status: int, reason: string)   // requests.exceptions.HTTPError
    | ConnectionError(reason: string)            // any other RequestException
    | InvalidJson                                // json.JSONDecodeError

  /** One cell of a Microsoft Graph workbook range.  `repr` is the text
      Python's `str()` gives for the number. */
  datatype Cell = Text(s: string) | Number(value: real, repr: string) | Boolean(b: bool)

  type Row = seq<Cell>

  /** The JSON object a workbook range request returns: its `values` key
      (absent: None) and whether it has any other key. */
  datatype Sheet = Sheet(values: Option<seq<Row>>, hasOtherKeys: bool) {
    /** `not data` in Python: the object is `{}`. */
    predicate IsEmpty() {
      values.None? && !hasOtherKeys
    }
  }

  /** Python `str(cell)`. */
  function Str(c: Cell): string {
    match c
    case Text(s) => s
    case Number(_, repr) => repr
    case Boolean(b) => if b then "True" else "False"
  }

  /** Python truthiness of a cell: "", 0 and False are falsy. */
  predicate Truthy(c: Cell) {
    match c
    case Text(s) => s != ""
    case Number(v, _) => v != 0.0
    case Boolean(b) => b
  }

  /** A JSON value as `response.json()` decodes it. */
  datatype Json =
    | JNull
    | JBool(b: bool)
    | JNum(n: real)
    | JStr(s: string)
    | JArr(items: seq<Json>)
    | JObj(fields: map<string, Json>)

  /** Python `dict.get(key)`: the value, or None (JSON null) when absent. */
  function Get(obj: map<string, Json>, key: string): (r: Json)
    ensures key !in obj ==> r == JNull
    ensures key in obj ==> r == obj[key]
  {
    if key in obj then obj[key] else JNull
  }

  /** Python truthiness of a JSON value. */
  predicate JsonTruthy(j: Json) {
    match j
    case JNull => false
    case JBool(b) => b
    case JNum(n) => n != 0.0
    case JStr(s) => s != ""
    case JArr(items) => items != []
    case JObj(fields) => fields != map[]
  }

  /** Membership in a non-empty sequence: in the front, or the last element. */
  lemma InLast<T>(s: seq<T>, c: T)
    requires s != []
    ensures c in s <==> c in s[..|s| - 1] || c == s[|s| - 1]
  {
    assert s == s[..|s| - 1] + [s[|s| - 1]];
  }

  // ---------------------------------------------------------------------
  // Strings

  /** The blanks the model strips: space, tab, line feed, vertical tab, form
      feed and carriage return. Python `str.strip()` also strips `\x1c` to
      `\x1f` and the Unicode spaces, JS `String.prototype.trim()` the Unicode
      spaces; those are kept here. */
  predicate IsSpace(c: char) {
    c == ' ' || ('\t' <= c <= '\r')
  }

  function TrimStart(s: string): string {
    if |s| > 0 && IsSpace(s[0]) then TrimStart(s[1..]) else s
  }

  function TrimEnd(s: string): string {
    if |s| > 0 && IsSpace(s[|s| - 1]) then TrimEnd(s[..|s| - 1]) else s
  }

  /** `TrimStart` drops the leading blanks: what it keeps is a suffix that
      does not start with one. */
  lemma {:induction false} TrimStartSpec(s: string)
    ensures var r := TrimStart(s);
      && |r| <= |s| && r == s[|s| - |r|..]
      && (r == [] || !IsSpace(r[0]))
      && (forall i :: 0 <= i < |s| - |r| ==> IsSpace(s[i]))
    decreases |s|
  {
    if |s| > 0 && IsSpace(s[0]) {
      TrimStartSpec(s[1..]);
    }
  }

  /** `TrimEnd` drops the trailing blanks: what it keeps is a prefix that
      does not end with one. */
  lemma {:induction false} TrimEndSpec(s: string)
    ensures var r := TrimEnd(s);
      && |r| <= |s| && r == s[..|r|]
      && (r == [] || !IsSpace(r[|r| - 1]))
      && (forall i :: |r| <= i < |s| ==> IsSpace(s[i]))
    decreases |s|
  {
    if |s| > 0 && IsSpace(s[|s| - 1]) {
      TrimEndSpec(s[..|s| - 1]);
    }
  }

  /** `strip()` / `trim()`: the input without leading and trailing whitespace,
      that is, a slice of the input with only blanks outside it and none at
      either of its ends. */
  function Trim(s: string): (r: string)
    ensures exists a, b ::
      && 0 <= a <= b <= |s| && r == s[a..b]
      && (forall i :: 0 <= i < a ==> IsSpace(s[i]))
      && (forall i :: b <= i < |s| ==> IsSpace(s[i]))
    ensures r == [] || (!IsSpace(r[0]) && !IsSpace(r[|r| - 1]))
    ensures (r == []) <==> (forall i :: 0 <= i < |s| ==> IsSpace(s[i]))
  {
    TrimBlank(s);
    TrimEnd(TrimStart(s))
  }

  /** Trimming keeps the slice between the first and the last non-blank
      character, and leaves nothing exactly when the input is all blanks. */
  lemma TrimBlank(s: string)
    ensures var t := TrimStart(s); var r := TrimEnd(t);
      && var a := |s| - |t|;
      && 0 <= a <= a + |r| <= |s| && r == s[a..a + |r|]
      && (forall i :: 0 <= i < a ==> IsSpace(s[i]))
      && (forall i :: a + |r| <= i < |s| ==> IsSpace(s[i]))
      && ((r == []) <==> (forall i :: 0 <= i < |s| ==> IsSpace(s[i])))
      && (r == [] || (!IsSpace(r[0]) && !IsSpace(r[|r| - 1])))
  {
    var t := TrimStart(s);
    var r := TrimEnd(t);
    TrimStartSpec(s);
    TrimEndSpec(t);
    var a := |s| - |t|;
    assert r == s[a..a + |r|];
    forall i | a + |r| <= i < |s|
      ensures IsSpace(s[i])
    {
      assert s[i] == t[i - a];
    }
    if t != [] {
      assert s[|s| - |t|] == t[0];
      assert !IsSpace(t[0]);
      assert r[0] == t[0];
    }
  }

  /** `s.startswith(p)` / `s.startsWith(p)`. */
  predicate IsPrefix(p: string, s: string) {
    |p| <= |s| && s[..|p|] == p
  }

  /** `sub in s` / `s.includes(sub)`. */
  predicate Contains(s: string, sub: string)
    decreases |s|
  {
    IsPrefix(sub, s) || (|s| > 0 && Contains(s[1..], sub))
  }

  /** A text is contained in anything built around it. */
  lemma {:induction false} InfixContained(front: string, mid: string, back: string)
    ensures Contains(front + mid + back, mid)
    decreases |front|
  {
    if front == [] {
      assert [] + mid + back == mid + back;
      assert (mid + back)[..|mid|] == mid;
    } else {
      assert (front + mid + back)[1..] == front[1..] + mid + back;
      InfixContained(front[1..], mid, back);
    }
  }

  lemma EmptyIsContained(s: string)
    ensures Contains(s, "")
  {
    assert IsPrefix("", s);
  }

  /** `s.replace(pat, "")`: every occurrence of `pat`, found left to right
      without overlap, removed. */
  function RemoveAll(s: string, pat: string): (r: string)
    requires pat != []
    ensures |r| <= |s|
    decreases |s|
  {
    if s == [] then []
    else if IsPrefix(pat, s) then RemoveAll(s[|pat|..], pat)
    else [s[0]] + RemoveAll(s[1..], pat)
  }

  /** Removing a pattern that does not occur changes nothing. */
  lemma {:induction false} RemoveAbsent(s: string, pat: string)
    requires pat != [] && !Contains(s, pat)
    ensures RemoveAll(s, pat) == s
  {
    if s != [] {
      RemoveAbsent(s[1..], pat);
      assert [s[0]] + s[1..] == s;
    }
  }

  /** A case mapping (Python `str.upper()` / `str.lower()`, JS
      `toLowerCase()`): Unicode tables, kept abstract. */
  type CaseMap = string -> string

  predicate IsDigit(c: char) {
    '0' <= c <= '9'
  }

  /** `''.join(filter(str.isdigit, s))`: the digit characters of `s`, in order. */
  function Digits(s: string): (r: string)
    ensures |r| <= |s|
    ensures forall i :: 0 <= i < |r| ==> IsDigit(r[i])
    ensures forall c :: c in r <==> c in s && IsDigit(c)
    ensures (forall i :: 0 <= i < |s| ==> IsDigit(s[i])) ==> r == s
  {
    if s == [] then []
    else if IsDigit(s[0]) then [s[0]] + Digits(s[1..])
    else Digits(s[1..])
  }

  /** Filtering distributes over concatenation, so appending a character
      appends it to the digits exactly when it is a digit. */
  lemma {:induction false} DigitsAppend(s: string, t: string)
    ensures Digits(s + t) == Digits(s) + Digits(t)
    decreases |s|
  {
    if s != [] {
      assert (s + t)[1..] == s[1..] + t;
      DigitsAppend(s[1..], t);
    } else {
      assert s + t == t;
    }
  }

  lemma DigitsSnoc(s: string, c: char)
    ensures Digits(s + [c]) == Digits(s) + (if IsDigit(c) then [c] else [])
  {
    DigitsAppend(s, [c]);
    assert [c][1..] == [];
  }

  /** The number a text of decimal digits denotes, most significant digit
      first. */
  function DecimalValue(s: string): nat
    requires forall i :: 0 <= i < |s| ==> IsDigit(s[i])
  {
    if s == [] then 0
    else
      var c := s[|s| - 1];
      assert IsDigit(c);
      10 * DecimalValue(s[..|s| - 1]) + (c - '0') as int
  }

  /** The decimal text of a natural number, as `String(n)` / `str(n)` print
      it: digits denoting `n`, with no leading zero. */
  function NatToDecimal(n: nat): (r: string)
    ensures |r| >= 1
    ensures forall i :: 0 <= i < |r| ==> IsDigit(r[i])
    ensures DecimalValue(r) == n
    ensures |r| > 1 ==> r[0] != '0'
    ensures n >= 10 <==> |r| >= 2
  {
    var d := ['0' + (n % 10) as char];
    if n < 10 then d
    else
      var front := NatToDecimal(n / 10);
      assert (front + d)[..|front + d| - 1] == front;
      front + d
  }

  /** Different numbers print differently. */
  lemma NatToDecimalInjective(m: nat, n: nat)
    requires NatToDecimal(m) == NatToDecimal(n)
    ensures m == n
  {
    // both texts denote their number
    assert DecimalValue(NatToDecimal(m)) == m && DecimalValue(NatToDecimal(n)) == n;
  }

}
