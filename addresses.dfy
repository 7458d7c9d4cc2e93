/**
 * Addresses: the address resolver of src/main/java/io/finn/signald/util/AddressUtil.java.
 *
 * A `SignalServiceAddress` names a peer by its UUID, its phone number, or both.
 * `FromIdentifier` classifies an external identifier as one or the other;
 * `Update` is the reconciliation of a `JsonAddress` with a newer one.
 *
 * The UUID text form (`IsUuid`, `ParseOrNull`) belongs to a library; here it is the
 * 8-4-4-4-12 hexadecimal form of section 3 of RFC 4122, case-insensitive.
 */
module Addresses {
  import opened Wrappers

  /** The value of one hexadecimal digit. */
  type Nibble = x: int | 0 <= x < 16

  datatype UuidValue = UuidValue(digits: seq<Nibble>)

  /** A 128-bit UUID, as its 32 hexadecimal digits, most significant first. */
  type Uuid = u: UuidValue | |u.digits| == 32 witness UuidValue(seq(32, _ => 0))

  predicate IsHexDigit(c: char) {
    '0' <= c <= '9' || 'a' <= c <= 'f' || 'A' <= c <= 'F'
  }

  function HexValue(c: char): Nibble
    requires IsHexDigit(c)
  {
    if c <= '9' then c as int - '0' as int
    else if c <= 'F' then c as int - 'A' as int + 10
    else c as int - 'a' as int + 10
  }

  /** The lower-case digit for `v`, as java.util.UUID prints it. */
  function HexDigit(v: Nibble): (c: char)
    ensures IsHexDigit(c) && HexValue(c) == v
    ensures !('A' <= c <= 'Z')
  {
    if v < 10 then ('0' as int + v) as char else ('a' as int + v - 10) as char
  }

  function LowerChar(c: char): char {
    if 'A' <= c <= 'Z' then (c as int - 'A' as int + 'a' as int) as char else c
  }

  function ToLower(s: string): (r: string)
    ensures |r| == |s|
  {
    seq(|s|, i requires 0 <= i < |s| => LowerChar(s[i]))
  }

  /** The positions of the four hyphens in the 36-character text form. */
  predicate IsHyphenAt(i: int) {
    i == 8 || i == 13 || i == 18 || i == 23
  }

  /** Where the `k`-th hexadecimal digit stands in the text form. */
  function DigitPosition(k: int): int {
    if k < 8 then k
    else if k < 12 then k + 1
    else if k < 16 then k + 2
    else if k < 20 then k + 3
    else k + 4
  }

  /** Which hexadecimal digit stands at position `i` of the text form. */
  function DigitIndex(i: int): int {
    if i < 8 then i
    else if i < 13 then i - 1
    else if i < 18 then i - 2
    else if i < 23 then i - 3
    else i - 4
  }

  /** UuidUtil.isUuid: the string is a UUID in 8-4-4-4-12 hexadecimal form. */
  predicate IsUuid(s: string) {
    |s| == 36 &&
    forall i | 0 <= i < 36 :: if IsHyphenAt(i) then s[i] == '-' else IsHexDigit(s[i])
  }

  /** UuidUtil.parseOrNull: the UUID the string spells, or null when it spells none. */
  function ParseOrNull(s: string): (r: Option<Uuid>)
    ensures r.Some? <==> IsUuid(s)
  {
    if IsUuid(s) then
      Some(UuidValue(seq(32, k requires 0 <= k < 32 => HexValue(s[DigitPosition(k)]))))
    else
      None
  }

  /** UUID.toString: the lower-case text form. */
  function Format(u: Uuid): (s: string)
    ensures IsUuid(s)
  {
    seq(36, i requires 0 <= i < 36 => if IsHyphenAt(i) then '-' else HexDigit(u.digits[DigitIndex(i)]))
  }

  /** Parsing the printed form of a UUID gives that UUID back. */
  lemma ParseFormat(u: Uuid)
    ensures ParseOrNull(Format(u)) == Some(u)
  {
    var s := Format(u);
    var d := ParseOrNull(s).value;
    forall k | 0 <= k < 32
      ensures d.digits[k] == u.digits[k]
    {
      assert !IsHyphenAt(DigitPosition(k)) && DigitIndex(DigitPosition(k)) == k;
      assert s[DigitPosition(k)] == HexDigit(u.digits[k]);
    }
    assert d.digits == u.digits;
  }

  /** Printing a parsed UUID gives the text back, in lower case. */
  lemma FormatParse(s: string)
    requires IsUuid(s)
    ensures Format(ParseOrNull(s).value) == ToLower(s)
  {
    var u := ParseOrNull(s).value;
    var t := Format(u);
    forall i | 0 <= i < 36
      ensures t[i] == ToLower(s)[i]
    {
      if !IsHyphenAt(i) {
        var k := DigitIndex(i);
        assert 0 <= k < 32 && DigitPosition(k) == i;
        var c := s[i];
        assert u.digits[k] == HexValue(c);
        assert HexDigit(HexValue(c)) == LowerChar(c);
      }
    }
  }

  /** org.whispersystems SignalServiceAddress: a UUID, a phone number, or both (either may be null). */
  datatype SignalServiceAddress = SignalServiceAddress(uuid: Option<Uuid>, number: Option<string>)

  /**
   * AddressUtil.fromIdentifier: a UUID-shaped identifier names the UUID it spells,
   * anything else is taken to be a phone number; exactly one field is set.
   */
  function FromIdentifier(identifier: string): (a: SignalServiceAddress)
    ensures IsUuid(identifier) ==> a.uuid == ParseOrNull(identifier) && a.number == None
    ensures !IsUuid(identifier) ==> a.uuid == None && a.number == Some(identifier)
    ensures a.uuid.Some? != a.number.Some?
  {
    if IsUuid(identifier) then
      SignalServiceAddress(ParseOrNull(identifier), None)
    else
      SignalServiceAddress(None, Some(identifier))
  }

  /** The identifier naming an address: its UUID's text form when it has one, else its number. */
  function Identifier(a: SignalServiceAddress): string {
    match (a.uuid, a.number)
    case (Some(u), _) => Format(u)
    case (None, Some(n)) => n
    case (None, None) => ""
  }

  /** An address with exactly one field is recovered from its identifier (a number must not look like a UUID). */
  lemma FromIdentifierRoundTrip(a: SignalServiceAddress)
    requires a.uuid.Some? != a.number.Some?
    requires a.number.Some? ==> !IsUuid(a.number.value)
    ensures FromIdentifier(Identifier(a)) == a
  {
    if a.uuid.Some? {
      ParseFormat(a.uuid.value);
    }
  }

  /** The identifier of a resolved address is the input, with a UUID's hexadecimal digits in lower case. */
  lemma IdentifierOfFromIdentifier(s: string)
    ensures Identifier(FromIdentifier(s)) == if IsUuid(s) then ToLower(s) else s
  {
    if IsUuid(s) {
      FormatParse(s);
    }
  }

  /** An identifier in UUID form and one that is not resolve to different addresses. */
  lemma UuidAndNumberDiffer(s: string, t: string)
    requires IsUuid(s) && !IsUuid(t)
    ensures FromIdentifier(s) != FromIdentifier(t)
  {
  }

  /** clientprotocol v1 JsonAddress: the mutable protocol form of an address (its relay field is not modelled). */
  class JsonAddress {
    var number: Option<string>
    var uuid: Option<Uuid>

    /** new JsonAddress(SignalServiceAddress) */
    constructor (a: SignalServiceAddress)
      ensures ServiceAddress() == a
    {
      number := a.number;
      uuid := a.uuid;
    }

    function ServiceAddress(): SignalServiceAddress
      reads this
    {
      SignalServiceAddress(uuid, number)
    }
  }

  /** The record `update` describes: each field `update` sets replaces `prior`'s, the others are kept. */
  function Merge(prior: SignalServiceAddress, update: SignalServiceAddress): (m: SignalServiceAddress)
    ensures update.number.Some? ==> m.number == update.number
    ensures update.number.None? ==> m.number == prior.number
    ensures update.uuid.Some? ==> m.uuid == update.uuid
    ensures update.uuid.None? ==> m.uuid == prior.uuid
  {
    SignalServiceAddress(
      if update.uuid.Some? then update.uuid else prior.uuid,
      if update.number.Some? then update.number else prior.number)
  }

  /** Merging twice is merging once; merging an empty update or an address with itself changes nothing. */
  lemma MergeLaws(prior: SignalServiceAddress, update: SignalServiceAddress)
    ensures Merge(Merge(prior, update), update) == Merge(prior, update)
    ensures Merge(prior, SignalServiceAddress(None, None)) == prior
    ensures Merge(prior, prior) == prior
  {
  }

  /**
   * AddressUtil.update, as written: it builds the merged record in a fresh JsonAddress
   * and then returns `prior` itself, so the merge is lost. `matches` is JsonAddress.matches.
   */
  method Update(prior: JsonAddress, update: JsonAddress, matches: (SignalServiceAddress, SignalServiceAddress) -> bool)
    returns (r: JsonAddress, ghost merged: SignalServiceAddress)
    requires matches(prior.ServiceAddress(), update.ServiceAddress())
    ensures r == prior && r.ServiceAddress() == prior.ServiceAddress()
    ensures merged == Merge(prior.ServiceAddress(), update.ServiceAddress())
  {
    var result := new JsonAddress(prior.ServiceAddress());
    if update.number.Some? {
      result.number := update.number;
    }
    if update.uuid.Some? {
      result.uuid := update.uuid;
    }
    merged := result.ServiceAddress();
    r := prior;
  }

  /** The inputs that show the lost merge: a number-only address updated with the UUID just learned for it. */
  lemma UpdateLosesLearnedUuid(n: string, id: Uuid)
    ensures var prior := SignalServiceAddress(None, Some(n));
            var update := SignalServiceAddress(Some(id), Some(n));
            Merge(prior, update) != prior && Merge(prior, update).uuid == Some(id)
  {
  }

  /** AddressUtil.update as evidently intended: it returns the merged record. */
  method UpdateMerged(prior: JsonAddress, update: JsonAddress, matches: (SignalServiceAddress, SignalServiceAddress) -> bool)
    returns (r: JsonAddress)
    requires matches(prior.ServiceAddress(), update.ServiceAddress())
    ensures fresh(r)
    ensures r.ServiceAddress() == Merge(prior.ServiceAddress(), update.ServiceAddress())
  {
    r := new JsonAddress(prior.ServiceAddress());
    if update.number.Some? {
      r.number := update.number;
    }
    if update.uuid.Some? {
      r.uuid := update.uuid;
    }
  }
}
