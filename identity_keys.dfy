/**
 * IdentityKeys: the fingerprint list of
 * src/main/java/io/finn/signald/clientprotocol/v1/IdentityKeyList.java.
 *
 * For a peer with zero or more stored identity keys, the list holds one entry per key
 * whose safety number can be computed, in the order the keys were given; a key whose
 * safety number comes back null is skipped and hides nothing else.
 * The safety-number computation itself (SafetyNumberHelper.computeFingerprint) is a
 * parameter: any function of the four inputs that may return null.
 */
module IdentityKeys {
  import opened Wrappers
  import opened Addresses

  type Bytes = seq<bv8>

  /** A libsignal public identity key, in serialized form. */
  datatype IdentityKey = IdentityKey(serialized: Bytes)

  /** A libsignal Fingerprint: the displayable safety number and the scannable form. */
  datatype Fingerprint = Fingerprint(displayable: string, scannable: Bytes)

  datatype TrustLevel = TrustedUnverified | TrustedVerified | Untrusted

  /** IdentityKeysTable.IdentityKeyRow: one stored key for an address. */
  datatype IdentityKeyRow = IdentityKeyRow(address: SignalServiceAddress, key: IdentityKey, trustLevel: TrustLevel, added: int)

  /** clientprotocol v1 IdentityKey: a stored key together with its safety number. */
  datatype IdentityKeyEntry = IdentityKeyEntry(row: IdentityKeyRow, safetyNumber: Fingerprint)

  /** SafetyNumberHelper.computeFingerprint(ownAddress, ownKey, peerAddress, peerKey), null as None. */
  type FingerprintFunction = (SignalServiceAddress, IdentityKey, SignalServiceAddress, IdentityKey) -> Option<Fingerprint>

  /** The fixed inputs of every fingerprint in one list. */
  datatype Viewpoint = Viewpoint(
    computeFingerprint: FingerprintFunction,
    ownAddress: SignalServiceAddress,
    ownKey: IdentityKey,
    peer: SignalServiceAddress)

  function SafetyNumber(v: Viewpoint, row: IdentityKeyRow): Option<Fingerprint> {
    v.computeFingerprint(v.ownAddress, v.ownKey, v.peer, row.key)
  }

  /** What adding one row contributes: its entry, or nothing when its safety number is null. */
  function NewEntries(v: Viewpoint, row: IdentityKeyRow): (es: seq<IdentityKeyEntry>)
    ensures |es| <= 1
    ensures SafetyNumber(v, row).None? <==> es == []
    ensures forall e | e in es :: e.row == row && SafetyNumber(v, row) == Some(e.safetyNumber)
  {
    match SafetyNumber(v, row)
    case None => []
    case Some(fp) => [IdentityKeyEntry(row, fp)]
  }

  /** The entries for `rows` added one at a time, first to last. */
  function Entries(v: Viewpoint, rows: seq<IdentityKeyRow>): (es: seq<IdentityKeyEntry>)
    ensures |es| <= |rows|
    ensures forall e | e in es :: e.row in rows && SafetyNumber(v, e.row) == Some(e.safetyNumber)
  {
    if rows == [] then []
    else Entries(v, rows[..|rows| - 1]) + NewEntries(v, rows[|rows| - 1])
  }

  /** The number of rows whose safety number is null. */
  function Skipped(v: Viewpoint, rows: seq<IdentityKeyRow>): nat {
    if rows == [] then 0
    else Skipped(v, rows[..|rows| - 1]) + (if SafetyNumber(v, rows[|rows| - 1]).None? then 1 else 0)
  }

  /** The positions of the rows whose safety number is not null, in increasing order. */
  function KeptIndices(v: Viewpoint, rows: seq<IdentityKeyRow>): (ks: seq<nat>)
    ensures forall j | 0 <= j < |ks| :: ks[j] < |rows|
    ensures forall j, j' | 0 <= j < j' < |ks| :: ks[j] < ks[j']
    ensures forall i | 0 <= i < |rows| :: i in ks <==> SafetyNumber(v, rows[i]).Some?
  {
    if rows == [] then []
    else
      var n := |rows| - 1;
      var front := KeptIndices(v, rows[..n]);
      assert forall i | 0 <= i < n :: rows[..n][i] == rows[i];
      if SafetyNumber(v, rows[n]).Some? then front + [n] else front
  }

  /** N rows of which M have a null safety number give exactly N - M entries. */
  lemma {:induction false} EntriesCount(v: Viewpoint, rows: seq<IdentityKeyRow>)
    ensures |Entries(v, rows)| == |rows| - Skipped(v, rows)
  {
    if rows != [] {
      EntriesCount(v, rows[..|rows| - 1]);
    }
  }

  /**
   * The j-th entry belongs to the j-th row with a non-null safety number and carries
   * that row's own safety number: the entries keep the rows' relative order.
   */
  lemma {:induction false} EntriesFollowRows(v: Viewpoint, rows: seq<IdentityKeyRow>)
    ensures |Entries(v, rows)| == |KeptIndices(v, rows)|
    ensures forall j | 0 <= j < |Entries(v, rows)| ::
      var i := KeptIndices(v, rows)[j];
      Entries(v, rows)[j] == IdentityKeyEntry(rows[i], SafetyNumber(v, rows[i]).value)
  {
    if rows != [] {
      var n := |rows| - 1;
      EntriesFollowRows(v, rows[..n]);
      assert forall i | 0 <= i < n :: rows[..n][i] == rows[i];
    }
  }

  /** Entries distribute over concatenation of the row list. */
  lemma {:induction false} EntriesAppend(v: Viewpoint, xs: seq<IdentityKeyRow>, ys: seq<IdentityKeyRow>)
    ensures Entries(v, xs + ys) == Entries(v, xs) + Entries(v, ys)
  {
    if ys == [] {
      assert xs + ys == xs;
    } else {
      var n := |ys| - 1;
      assert (xs + ys)[..|xs + ys| - 1] == xs + ys[..n];
      EntriesAppend(v, xs, ys[..n]);
    }
  }

  /** A row whose safety number is null hides none of the rows around it. */
  lemma {:induction false} SkippedRowHidesNothing(v: Viewpoint, xs: seq<IdentityKeyRow>, bad: IdentityKeyRow, ys: seq<IdentityKeyRow>)
    requires SafetyNumber(v, bad).None?
    ensures Entries(v, xs + [bad] + ys) == Entries(v, xs) + Entries(v, ys)
  {
    var front := xs + [bad];
    assert front[..|front| - 1] == xs;
    assert Entries(v, front) == Entries(v, xs);
    EntriesAppend(v, front, ys);
  }

  /** clientprotocol v1 IdentityKeyList: the keys of one peer, each with its safety number. */
  class IdentityKeyList {
    const ownAddress: SignalServiceAddress
    const ownKey: IdentityKey
    const address: JsonAddress
    /** The safety-number computation the list uses (SafetyNumberHelper.computeFingerprint). */
    const computeFingerprint: FingerprintFunction
    var identities: seq<IdentityKeyEntry>

    function View(): Viewpoint
      reads address
    {
      Viewpoint(computeFingerprint, ownAddress, ownKey, address.ServiceAddress())
    }

    /** Builds the list for peer `a`; `rows` is null when no keys were looked up. */
    constructor (computeFingerprint: FingerprintFunction, ownAddress: SignalServiceAddress, ownKey: IdentityKey,
                 a: SignalServiceAddress, rows: Option<seq<IdentityKeyRow>>)
      ensures fresh(address) && address.ServiceAddress() == a
      ensures this.ownAddress == ownAddress && this.ownKey == ownKey && this.computeFingerprint == computeFingerprint
      ensures identities == match rows
        case None => []
        case Some(rs) => Entries(View(), rs)
    {
      this.ownAddress := ownAddress;
      this.ownKey := ownKey;
      this.computeFingerprint := computeFingerprint;
      this.address := new JsonAddress(a);
      this.identities := [];
      new;
      if rows.None? {
        return;
      }
      var rs := rows.value;
      for i := 0 to |rs|
        invariant address.ServiceAddress() == a
        invariant identities == Entries(View(), rs[..i])
      {
        assert rs[..i + 1][..i] == rs[..i];
        AddKey(rs[i]);
      }
      assert rs[..|rs|] == rs;
    }

    /** Appends the entry for `identity`, unless its safety number is null; earlier entries stay as they are. */
    method AddKey(identity: IdentityKeyRow)
      modifies this`identities
      ensures identities == old(identities) + NewEntries(View(), identity)
      ensures old(identities) <= identities && |identities| <= |old(identities)| + 1
    {
      var safetyNumber := computeFingerprint(ownAddress, ownKey, address.ServiceAddress(), identity.key);
      if safetyNumber.None? {
        return;
      }
      identities := identities + [IdentityKeyEntry(identity, safetyNumber.value)];
    }
  }
}
