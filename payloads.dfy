/**
 * The text commands the client builds for the engine: the two speaking
 * toggles, a blendshape update carrying JSON text, and an audio notice
 * carrying a byte count. `Parse` reads a command back, which shows the
 * builders never produce two equal texts for different commands.
 */
module Payloads {
  import opened Outcomes

  const StartSpeakingText: string := "startspeaking"
  const StopSpeakingText: string := "stopspeaking"
  const BlendshapesPrefix: string := "BLENDSHAPES."
  const AudioPrefix: string := "AUDIO."
  const AudioSuffix: string := "bytes"

  /** A command the client builds; the blendshape JSON is opaque text. */
  datatype Command =
    | StartSpeaking
    | StopSpeaking
    | Blendshapes(json: string)
    | Audio(byteCount: nat)

  predicate IsDigit(ch: char) {
    '0' <= ch <= '9'
  }

  function DigitChar(d: nat): char
    requires d < 10
  {
    ('0' as int + d) as char
  }

  function DigitValue(ch: char): nat
    requires IsDigit(ch)
  {
    ch as int - '0' as int
  }

  /**
   * A non-negative integer as a template literal prints it: decimal
   * digits, most significant first, with no leading zero.
   */
  function Decimal(n: nat): (s: string)
    ensures s != [] && (|s| > 1 ==> s[0] != '0')
    ensures forall i :: 0 <= i < |s| ==> IsDigit(s[i])
  {
    if n < 10 then [DigitChar(n)] else Decimal(n / 10) + [DigitChar(n % 10)]
  }

  predicate AllDigits(s: string) {
    forall i :: 0 <= i < |s| ==> IsDigit(s[i])
  }

  /** The value of a string of decimal digits. */
  function DigitsValue(s: string): nat
    requires AllDigits(s)
  {
    if s == [] then 0 else 10 * DigitsValue(s[..|s| - 1]) + DigitValue(s[|s| - 1])
  }

  /** Reads back what `Decimal` prints; anything else is refused. */
  function ParseDecimal(s: string): Option<nat> {
    if s != [] && AllDigits(s) && (|s| == 1 || s[0] != '0') then Some(DigitsValue(s)) else None
  }

  lemma {:induction false} DigitsValueOfDecimal(n: nat)
    ensures DigitsValue(Decimal(n)) == n
  {
    if n >= 10 {
      var s := Decimal(n);
      assert s[..|s| - 1] == Decimal(n / 10);
      DigitsValueOfDecimal(n / 10);
    }
  }

  /** Printing then reading a byte count gives it back. */
  lemma DecimalRoundTrip(n: nat)
    ensures ParseDecimal(Decimal(n)) == Some(n)
  {
    DigitsValueOfDecimal(n);
  }

  lemma {:induction false} DecimalOfDigitsValue(s: string)
    requires s != [] && AllDigits(s) && (|s| == 1 || s[0] != '0')
    ensures Decimal(DigitsValue(s)) == s
  {
    var n := DigitsValue(s);
    var init := s[..|s| - 1];
    if |s| == 1 {
      assert init == [];
    } else {
      assert init[0] == s[0];
      assert DigitsValue(init) > 0 by { LeadingDigitPositive(init); }
      DecimalOfDigitsValue(init);
      assert s == init + [s[|s| - 1]];
    }
  }

  lemma {:induction false} LeadingDigitPositive(s: string)
    requires s != [] && AllDigits(s) && s[0] != '0'
    ensures DigitsValue(s) > 0
  {
    if |s| > 1 {
      var init := s[..|s| - 1];
      assert init[0] == s[0];
      LeadingDigitPositive(init);
    }
  }

  /** The only text `ParseDecimal` accepts for a number is the one `Decimal` prints. */
  lemma DecimalUnique(s: string, n: nat)
    requires ParseDecimal(s) == Some(n)
    ensures Decimal(n) == s
  {
    DecimalOfDigitsValue(s);
  }

  /**
   * The text the client builds for each command: the literal toggles,
   * "BLENDSHAPES." before the JSON text, and "AUDIO." and "bytes" around
   * the byte count.
   */
  function Payload(c: Command): string {
    match c
    case StartSpeaking => StartSpeakingText
    case StopSpeaking => StopSpeakingText
    case Blendshapes(json) => BlendshapesPrefix + json
    case Audio(n) => AudioPrefix + Decimal(n) + AudioSuffix
  }

  predicate StartsWith(s: string, prefix: string) {
    |prefix| <= |s| && s[..|prefix|] == prefix
  }

  predicate EndsWith(s: string, suffix: string) {
    |suffix| <= |s| && s[|s| - |suffix|..] == suffix
  }

  /** How a receiver recognises a command text; texts of no known shape are refused. */
  function Parse(s: string): Option<Command> {
    if s == StartSpeakingText then Some(StartSpeaking)
    else if s == StopSpeakingText then Some(StopSpeaking)
    else if StartsWith(s, BlendshapesPrefix) then Some(Blendshapes(s[|BlendshapesPrefix|..]))
    else if StartsWith(s, AudioPrefix) && EndsWith(s, AudioSuffix) && |AudioPrefix| + |AudioSuffix| <= |s| then
      match ParseDecimal(s[|AudioPrefix|..|s| - |AudioSuffix|])
      case Some(n) => Some(Audio(n))
      case None => None
    else None
  }

  /** Every command the client builds is read back as itself. */
  lemma ParsePayload(c: Command)
    ensures Parse(Payload(c)) == Some(c)
  {
    var s := Payload(c);
    match c
    case StartSpeaking =>
    case StopSpeaking =>
    case Blendshapes(json) =>
      assert s[..|BlendshapesPrefix|] == BlendshapesPrefix;
      assert s[|BlendshapesPrefix|..] == json;
      assert s[0] == 'B';
      assert s != StartSpeakingText && s != StopSpeakingText;
    case Audio(n) =>
      var d := Decimal(n);
      assert s[..|AudioPrefix|] == AudioPrefix;
      assert s[|s| - |AudioSuffix|..] == AudioSuffix;
      assert s[|AudioPrefix|..|s| - |AudioSuffix|] == d;
      assert s[0] == 'A';
      assert s != StartSpeakingText && s != StopSpeakingText;
      assert !StartsWith(s, BlendshapesPrefix) by { assert s[1] == 'U'; }
      DecimalRoundTrip(n);
  }

  /** Whatever `Parse` accepts is exactly the text built for the command it returns. */
  lemma PayloadOfParse(s: string, c: Command)
    requires Parse(s) == Some(c)
    ensures Payload(c) == s
  {
    if s == StartSpeakingText || s == StopSpeakingText {
    } else if StartsWith(s, BlendshapesPrefix) {
      assert s == s[..|BlendshapesPrefix|] + s[|BlendshapesPrefix|..];
    } else {
      var digits := s[|AudioPrefix|..|s| - |AudioSuffix|];
      DecimalUnique(digits, c.byteCount);
      assert s == s[..|AudioPrefix|] + digits + s[|s| - |AudioSuffix|..];
    }
  }

  /** Different commands are never sent as the same text. */
  lemma PayloadInjective(c1: Command, c2: Command)
    requires Payload(c1) == Payload(c2)
    ensures c1 == c2
  {
    ParsePayload(c1);
    ParsePayload(c2);
  }
}
