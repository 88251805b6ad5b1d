/** Retry and routing metadata carried in record headers (app/kafka/headers.py). Header values are
    modelled as the text they decode to. */
module Headers {
  import opened Wrappers

  const ATTEMPT := "x-attempt"
  const NOT_BEFORE := "x-not-before"
  const ERROR := "x-error"
  const ORIGIN_TOPIC := "x-origin-topic"
  const FAILED_AT := "x-failed-at"
  const ERROR_LIMIT := 500

  type Raw = seq<(string, Option<string>)>

  /** What the getters read off a record. */
  datatype Meta<+T> = Meta(attempt: nat, notBefore: int, error: Option<string>, origin: Option<T>)

  // ---------------------------------------------------------------- decimal integers

  const DIGITS := "0123456789"

  function ShowNat(n: nat): (text: string)
    ensures 0 < |text|
  {
    if n < 10 then [DIGITS[n]] else ShowNat(n / 10) + [DIGITS[n % 10]]
  }

  /** str(int) */
  function ShowInt(n: int): string {
    if n < 0 then "-" + ShowNat(-n) else ShowNat(n)
  }

  predicate IsDigit(ch: char) { '0' <= ch <= '9' }

  function ParseNat(text: string): Option<nat> {
    if text == [] then None
    else
      var last := text[|text| - 1];
      if !IsDigit(last) then None
      else
        var digit := (last as int) - ('0' as int);
        if |text| == 1 then Some(digit)
        else
          var front := ParseNat(text[..|text| - 1]);
          if front.None? then None else Some(10 * front.value + digit)
  }

  function Signed(negative: bool, n: Option<nat>): Option<int> {
    if n.None? then None
    else
      var value: int := n.value;
      Some(if negative then -value else value)
  }

  /** int(str): an optional sign and decimal digits, anything else is a ValueError. */
  function ParseInt(text: string): Option<int> {
    if text == [] then None
    else if text[0] == '-' then Signed(true, ParseNat(text[1..]))
    else Signed(false, ParseNat(if text[0] == '+' then text[1..] else text))
  }

  lemma {:induction false} ParseShowNat(n: nat)
    ensures ParseNat(ShowNat(n)) == Some(n)
    ensures IsDigit(ShowNat(n)[0])
  {
    if n < 10 {
    } else {
      ParseShowNat(n / 10);
      var text := ShowNat(n);
      assert text[..|text| - 1] == ShowNat(n / 10);
    }
  }

  lemma MinusSign(text: string)
    ensures ParseInt("-" + text) == Signed(true, ParseNat(text))
  {
    assert ("-" + text)[1..] == text;
  }

  /** A written integer reads back as itself, sign included. */
  lemma ParseShowInt(n: int)
    ensures ParseInt(ShowInt(n)) == Some(n)
  {
    if n < 0 {
      MinusSign(ShowNat(-n));
      ParseShowNat(-n);
    } else {
      ParseShowNat(n);
    }
  }

  /** Exactly the non-empty texts of decimal digits are read as naturals. */
  lemma {:induction false} ParsesIff(text: string)
    ensures ParseNat(text).Some? <==> text != [] && forall k :: 0 <= k < |text| ==> IsDigit(text[k])
  {
    if 1 < |text| {
      var init := text[..|text| - 1];
      ParsesIff(init);
      assert forall k :: 0 <= k < |init| ==> init[k] == text[k];
    }
  }

  // ---------------------------------------------------------------- reading

  /** How a timestamp is written and read; `repr` and `float` in the program. */
  datatype TimeCodec = TimeCodec(show: int -> string, parse: string -> Option<int>)

  ghost predicate Lossless(codec: TimeCodec) {
    forall t :: codec.show(t) != [] && codec.parse(codec.show(t)) == Some(t)
  }

  /** to_dict: a later header of the same name wins; a missing value reads as the empty text. */
  function ToDict(headers: Raw): map<string, string> {
    if headers == [] then map[]
    else
      var (name, value) := headers[|headers| - 1];
      ToDict(headers[..|headers| - 1])[name := if value.Some? then value.value else ""]
  }

  function Lookup(headers: Raw, name: string): Option<string> {
    var dict := ToDict(headers);
    if name in dict then Some(dict[name]) else None
  }

  function AtLeastOne(n: int): nat { if n < 1 then 1 else n }

  /** get_attempt: 1 when absent, empty or unreadable, and never below 1. */
  function GetAttempt(headers: Raw): nat {
    var raw := Lookup(headers, ATTEMPT);
    if raw.None? || raw.value == "" then 1
    else var n := ParseInt(raw.value); if n.None? then 1 else AtLeastOne(n.value)
  }

  /** get_not_before: 0 when absent, empty or unreadable. */
  function GetNotBefore(codec: TimeCodec, headers: Raw): int {
    var raw := Lookup(headers, NOT_BEFORE);
    if raw.None? || raw.value == "" then 0
    else var t := codec.parse(raw.value); if t.None? then 0 else t.value
  }

  function Read(codec: TimeCodec, headers: Raw): Meta<string> {
    Meta(GetAttempt(headers), GetNotBefore(codec, headers), Lookup(headers, ERROR), Lookup(headers, ORIGIN_TOPIC))
  }

  /** A header that is missing, empty or not a number counts as the first attempt, and so does any number
      below one. */
  lemma BadAttemptIsFirst(headers: Raw, text: string)
    requires Lookup(headers, ATTEMPT) == Some(text)
    requires text == "" || (text[0] !in {'+', '-'} && exists k :: 0 <= k < |text| && !IsDigit(text[k]))
    ensures GetAttempt(headers) == 1
  {
    ParsesIff(text);
  }

  lemma NegativeAttemptIsFirst(headers: Raw, n: int)
    requires Lookup(headers, ATTEMPT) == Some(ShowInt(n)) && n < 1
    ensures GetAttempt(headers) == 1
  {
    ParseShowInt(n);
  }

  // ---------------------------------------------------------------- building

  function Clip(error: string): string {
    if |error| <= ERROR_LIMIT then error else error[..ERROR_LIMIT]
  }

  /** `shown` is the first 500 characters of `full`, or all of it when it is shorter. */
  predicate Clipped(full: string, shown: string) {
    shown <= full && |shown| == if |full| <= 500 then |full| else 500
  }

  /** What a record built with these arguments will read back as. */
  function Wire<T>(attempt: int, notBefore: Option<int>, error: Option<string>, origin: Option<T>): Meta<T> {
    Meta(AtLeastOne(attempt),
         if notBefore.Some? then notBefore.value else 0,
         if error.Some? then Some(Clip(error.value)) else None,
         origin)
  }

  /** Appending a header shadows earlier ones of its name and no others; one without a value reads as "". */
  lemma LookupAppend(headers: Raw, name: string, value: Option<string>, other: string)
    ensures var longer := headers + [(name, value)];
            && (other != name ==> Lookup(longer, other) == Lookup(headers, other))
            && Lookup(longer, name) == Some(if value.Some? then value.value else "")
  {
    var longer := headers + [(name, value)];
    assert longer[..|longer| - 1] == headers;
  }

  lemma ReadAppend(headers: Raw, name: string, value: string)
    ensures forall other :: Lookup(headers + [(name, Some(value))], other) ==
              if other == name then Some(value) else Lookup(headers, other)
  {
    forall other
      ensures Lookup(headers + [(name, Some(value))], other) ==
                if other == name then Some(value) else Lookup(headers, other)
    {
      LookupAppend(headers, name, Some(value), other);
    }
  }

  /** build, header by header; everything given reads back through the getters. */
  method Build(codec: TimeCodec, attempt: int, notBefore: Option<int>, error: Option<string>,
               origin: Option<string>, stamp: string)
    returns (headers: Raw)
    requires Lossless(codec)
    ensures Read(codec, headers) == Wire(attempt, notBefore, error, origin)
    ensures Lookup(headers, FAILED_AT) == if origin.Some? then Some(stamp) else None
    ensures error.Some? ==> Lookup(headers, ERROR).Some? && Clipped(error.value, Lookup(headers, ERROR).value)
    ensures 1 <= attempt ==> GetAttempt(headers) == attempt
  {
    ParseShowInt(attempt);
    headers := [];
    ReadAppend(headers, ATTEMPT, ShowInt(attempt));
    headers := headers + [(ATTEMPT, Some(ShowInt(attempt)))];
    if notBefore.Some? {
      ReadAppend(headers, NOT_BEFORE, codec.show(notBefore.value));
      headers := headers + [(NOT_BEFORE, Some(codec.show(notBefore.value)))];
    }
    if error.Some? {
      ReadAppend(headers, ERROR, Clip(error.value));
      headers := headers + [(ERROR, Some(Clip(error.value)))];
    }
    if origin.Some? {
      ReadAppend(headers, ORIGIN_TOPIC, origin.value);
      headers := headers + [(ORIGIN_TOPIC, Some(origin.value))];
      ReadAppend(headers, FAILED_AT, stamp);
      headers := headers + [(FAILED_AT, Some(stamp))];
    }
  }

  /** A replay reads a retry record's headers and builds its own: the attempt and the clipped error
      survive any number of such hops, the timing and the origin do not. */
  function Forward<T>(meta: Meta<T>): Meta<T> {
    Wire(meta.attempt, None, meta.error, None)
  }

  function ForwardTimes<T>(meta: Meta<T>, n: nat): Meta<T> {
    if n == 0 then meta else Forward(ForwardTimes(meta, n - 1))
  }

  lemma {:induction false} ForwardKeeps<T>(attempt: int, notBefore: Option<int>, error: string, origin: Option<T>,
      n: nat)
    ensures var sent := Wire(attempt, notBefore, Some(error), origin);
            var got := ForwardTimes(sent, n);
            && got.attempt == sent.attempt
            && got.error.Some? && Clipped(error, got.error.value)
  {
    if n > 0 {
      ForwardKeeps(attempt, notBefore, error, origin, n - 1);
    }
  }
}
