/**
 * The sanitizers: the Excel formula-injection guard, the object sanitizer that
 * runs an HTML cleaner over every string inside a value, the log mask for
 * sensitive strings, and the phone-number filter. The HTML cleaner itself is a
 * library call and is a parameter here.
 */
module Sanitizer {
  import opened JsMap
  import opened JsValue
  import opened Strings
  import opened Folds

  /** Characters a spreadsheet may read as the start of a formula. */
  const DangerousChars: seq<char> := ['=', '+', '-', '@', '\t', '\r']

  predicate StartsDangerous(s: string)
  {
    |s| > 0 && s[0] in DangerousChars
  }

  /**
   * `sanitizeForExcel`: a string whose first character is dangerous gets a
   * leading `'`; every other value, the empty string included, is returned as is.
   */
  function SanitizeForExcel(input: Value): (r: Value)
    ensures !input.Str? ==> r == input
    ensures input.Str? && StartsDangerous(input.s) ==> r == Str("'" + input.s)
    ensures input.Str? && !StartsDangerous(input.s) ==> r == input
  {
    if !input.Str? then input
    else if StartsDangerous(input.s) then Str("'" + input.s)
    else input
  }

  /** The output of `sanitizeForExcel` never starts a formula, and sanitizing it again changes nothing. */
  lemma SanitizeForExcelSafe(input: Value)
    ensures SanitizeForExcel(input).Str? ==> !StartsDangerous(SanitizeForExcel(input).s)
    ensures SanitizeForExcel(SanitizeForExcel(input)) == SanitizeForExcel(input)
  {
    if input.Str? && StartsDangerous(input.s) {
      assert ("'" + input.s)[0] == '\'';
    }
  }

  /** `sanitizeHtml`: the empty string stays empty; anything else goes through the HTML cleaner. */
  function SanitizeHtml(input: string, purify: string -> string): (r: string)
    ensures input == "" ==> r == ""
    ensures input != "" ==> r == purify(input)
  {
    if input == "" then "" else purify(input)
  }

  /** What `sanitizeObject` returns: the same shape, with every string cleaned. */
  function Sanitized(v: Value, purify: string -> string): (r: Value)
    ensures v.Str? ==> r.Str?
    ensures v.Str? ==> r == Str(SanitizeHtml(v.s, purify))
    ensures v.Arr? ==> r.Arr? && |r.items| == |v.items|
    ensures v.Arr? ==> forall i :: 0 <= i < |v.items| ==> r.items[i] == Sanitized(v.items[i], purify)
    ensures v.Obj? ==> r.Obj? && Keys(r.props) == Keys(v.props)
    ensures v.Obj? ==> |r.props| == |v.props|
                       && forall i :: 0 <= i < |v.props| ==> r.props[i] == Entry(v.props[i].key, Sanitized(v.props[i].value, purify))
    ensures !v.Str? && !v.Arr? && !v.Obj? ==> r == v
  {
    match v
    case Str(s) => Str(SanitizeHtml(s, purify))
    case Arr(items) => Arr(seq(|items|, i requires 0 <= i < |items| => Sanitized(items[i], purify)))
    case Obj(props) =>
      var out := seq(|props|, i requires 0 <= i < |props| => Entry(props[i].key, Sanitized(props[i].value, purify)));
      KeysPointwise(out, props);
      Obj(out)
    case _ => v
  }

  /** A value holds no string anywhere inside it. */
  predicate NoStrings(v: Value)
  {
    match v
    case Str(_) => false
    case Arr(items) => forall i :: 0 <= i < |items| ==> NoStrings(items[i])
    case Obj(props) => forall i :: 0 <= i < |props| ==> NoStrings(props[i].value)
    case _ => true
  }

  /** Only strings are touched: a value without strings comes back as it was. */
  lemma {:induction false} SanitizedNoStrings(v: Value, purify: string -> string)
    requires NoStrings(v)
    ensures Sanitized(v, purify) == v
    decreases v
  {
    match v
    case Arr(items) =>
      forall i | 0 <= i < |items| ensures Sanitized(items[i], purify) == items[i] {
        SanitizedNoStrings(items[i], purify);
      }
      assert Sanitized(v, purify).items == items;
    case Obj(props) =>
      forall i | 0 <= i < |props| ensures Sanitized(props[i].value, purify) == props[i].value {
        SanitizedNoStrings(props[i].value, purify);
      }
      assert Sanitized(v, purify).props == props;
    case _ =>
  }

  /** With an idempotent HTML cleaner, sanitizing a sanitized value changes nothing. */
  lemma {:induction false} SanitizedIdempotent(v: Value, purify: string -> string)
    requires forall s :: purify(purify(s)) == purify(s)
    ensures Sanitized(Sanitized(v, purify), purify) == Sanitized(v, purify)
    decreases v
  {
    match v
    case Str(s) =>
      if s != "" {
        assert purify(purify(s)) == purify(s);
      }
    case Arr(items) =>
      var once := Sanitized(v, purify);
      forall i | 0 <= i < |items| ensures Sanitized(once.items[i], purify) == once.items[i] {
        SanitizedIdempotent(items[i], purify);
      }
      assert Sanitized(once, purify).items == once.items;
    case Obj(props) =>
      var once := Sanitized(v, purify);
      forall i | 0 <= i < |props| ensures Sanitized(once.props[i].value, purify) == once.props[i].value {
        SanitizedIdempotent(props[i].value, purify);
      }
      assert Sanitized(once, purify).props == once.props;
    case _ =>
  }

  lemma KeysPointwise<V, W>(a: seq<Entry<string, V>>, b: seq<Entry<string, W>>)
    requires |a| == |b| && forall i :: 0 <= i < |a| ==> a[i].key == b[i].key
    ensures Keys(a) == Keys(b)
  {
    forall i | 0 <= i < |a| ensures Keys(a)[i] == Keys(b)[i] {
      KeysAt(a, i);
      KeysAt(b, i);
    }
  }

  /**
   * `sanitizeObject`: strings are cleaned, arrays are mapped element by
   * element, and an object is rebuilt property by property (`sanitized[key] = ...`
   * in a `for ... in` loop); every other value is returned unchanged.
   */
  method SanitizeObject(obj: Value, purify: string -> string) returns (r: Value)
    requires WellFormed(obj)
    ensures r == Sanitized(obj, purify)
    decreases obj
  {
    match obj {
      case Str(s) =>
        r := Str(SanitizeHtml(s, purify));
      case Arr(items) =>
        var out: seq<Value> := [];
        var i := 0;
        while i < |items|
          invariant 0 <= i <= |items|
          invariant |out| == i
          invariant forall j :: 0 <= j < i ==> out[j] == Sanitized(items[j], purify)
        {
          var item := SanitizeObject(items[i], purify);
          out := out + [item];
          i := i + 1;
        }
        r := Arr(out);
      case Obj(props) =>
        var sanitized: seq<Entry<string, Value>> := [];
        var i := 0;
        while i < |props|
          invariant 0 <= i <= |props|
          invariant |sanitized| == i
          invariant forall j :: 0 <= j < i ==> sanitized[j] == Entry(props[j].key, Sanitized(props[j].value, purify))
        {
          var value := SanitizeObject(props[i].value, purify);
          FreshKey(sanitized, props, i);
          SetNewKey(sanitized, props[i].key, value);
          sanitized := Set(sanitized, props[i].key, value);
          i := i + 1;
        }
        r := Obj(sanitized);
      case _ =>
        r := obj;
    }
  }

  /** The next property name of a well-formed object is not among those already copied. */
  lemma FreshKey(done: seq<Entry<string, Value>>, props: seq<Entry<string, Value>>, i: nat)
    requires UniqueKeys(props) && i < |props| && |done| == i
    requires forall j :: 0 <= j < i ==> done[j].key == props[j].key
    ensures props[i].key !in Keys(done)
  {
    if props[i].key in Keys(done) {
      var j :| 0 <= j < |done| && Keys(done)[j] == props[i].key;
      KeysAt(done, j);
      assert false;
    }
  }

  /** `s.slice(start)` with JavaScript's treatment of a negative start (counted from the end). */
  function SliceFrom(s: string, start: int): (r: string)
    ensures start >= 0 ==> r == if start <= |s| then s[start..] else ""
    ensures -|s| <= start < 0 ==> r == s[|s| + start..]
  {
    if start < 0 then (if |s| + start < 0 then s else s[|s| + start..])
    else if start <= |s| then s[start..]
    else ""
  }

  const Masked: string := "***"

  /**
   * `maskSensitiveData` as written: `'*'.repeat(length - visibleChars) + data.slice(-visibleChars)`.
   * For one or more visible characters it keeps the length, keeps the last characters and
   * stars the rest; for zero, `slice(-0)` is `slice(0)` and the whole string is appended.
   */
  function MaskSensitiveDataAsWritten(data: string, visibleChars: int): (r: string)
    ensures data == "" || |data| <= visibleChars ==> r == Masked
    ensures data != "" && 1 <= visibleChars < |data| ==>
      |r| == |data| && r[|data| - visibleChars..] == data[|data| - visibleChars..]
      && forall i :: 0 <= i < |data| - visibleChars ==> r[i] == '*'
  {
    if data == "" || |data| <= visibleChars then Masked
    else Repeat('*', |data| - visibleChars) + SliceFrom(data, -visibleChars)
  }

  /** With no visible characters, the as-written mask leaves the secret readable in full. */
  lemma MaskZeroLeaks()
    ensures MaskSensitiveDataAsWritten("secret", 0) == "******secret"
  {
    assert Repeat('*', 6) == "******";
  }

  /**
   * `maskSensitiveData` as evidently intended: the last `visibleChars` characters
   * are kept and every other character becomes `*`, for every count including zero.
   */
  function MaskSensitiveData(data: string, visibleChars: nat): (r: string)
    ensures data == "" || |data| <= visibleChars ==> r == Masked
    ensures data != "" && visibleChars < |data| ==>
      |r| == |data| && r[|data| - visibleChars..] == data[|data| - visibleChars..]
      && forall i :: 0 <= i < |data| - visibleChars ==> r[i] == '*'
  {
    if data == "" || |data| <= visibleChars then Masked
    else Repeat('*', |data| - visibleChars) + data[|data| - visibleChars..]
  }

  /** The two agree whenever at least one character stays visible, the default of four included. */
  lemma MaskAgreesWhenVisible(data: string, visibleChars: nat)
    requires visibleChars >= 1
    ensures MaskSensitiveDataAsWritten(data, visibleChars) == MaskSensitiveData(data, visibleChars)
  {
  }

  predicate IsPhoneChar(c: char)
  {
    '0' <= c <= '9' || c == '+'
  }

  /** `phone.replace(/[^0-9+]/g, '')`: the digits and plus signs of the input, in order. */
  function SanitizePhone(phone: string): (r: string)
    ensures r == Filter(phone, IsPhoneChar)
    ensures forall c :: c in r ==> IsPhoneChar(c)
    ensures forall c :: c in r <==> c in phone && IsPhoneChar(c)
    ensures forall c :: multiset(r)[c] == if IsPhoneChar(c) then multiset(phone)[c] else 0
    ensures (forall c :: c in phone ==> IsPhoneChar(c)) ==> r == phone
  {
    FilterAllKept(phone);
    assert forall c :: multiset(Filter(phone, IsPhoneChar))[c] == if IsPhoneChar(c) then multiset(phone)[c] else 0 by {
      forall c ensures multiset(Filter(phone, IsPhoneChar))[c] == if IsPhoneChar(c) then multiset(phone)[c] else 0 {
        FilterMultiset(phone, IsPhoneChar, c);
      }
    }
    Filter(phone, IsPhoneChar)
  }

  lemma {:induction false} FilterAllKept(s: string)
    ensures (forall c :: c in s ==> IsPhoneChar(c)) ==> Filter(s, IsPhoneChar) == s
  {
    if s != [] {
      FilterAllKept(s[1..]);
      assert forall c :: c in s[1..] ==> c in s;
      assert s == [s[0]] + s[1..];
    }
  }

  /** Cleaning a phone number twice is cleaning it once. */
  lemma SanitizePhoneIdempotent(phone: string)
    ensures SanitizePhone(SanitizePhone(phone)) == SanitizePhone(phone)
  {
  }
}
