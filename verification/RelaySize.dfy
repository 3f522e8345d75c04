/** How long a relay message is on the wire, in the field sizes of proto3: it must fit the reader's limit
    at every hop, whatever padding is drawn there. */
module RelaySize {
  import Framing

  const READ_LIMIT := 4096
  const CONFUSION_MAX_PROPORTION := 10
  const CONFUSION_PAD_LEN := 10

  /** Base58 of a 32-byte hash. */
  const ID_CHARS := 44

  /** The two-byte length in front of the ciphertext. */
  const PREFIX := 2

  /** The longest plaintext whose relay message always fits. The plaintext is what the cipher seals: the
      application's message behind its four-byte length. */
  const PLAINTEXT_LIMIT := 3600

  function VarintSize(n: nat): nat { if n < 128 then 1 else 1 + VarintSize(n / 128) }

  /** A string or bytes field; proto3 omits an empty one. All its field numbers take one byte. */
  function FieldSize(n: nat): nat { if n == 0 then 0 else 1 + VarintSize(n) + n }

  datatype Kind = SetSessionId | Ack | Data | Disconnect | Wake | Probe | Success

  /** proto3 omits an enumeration value of zero. */
  function KindSize(k: Kind): nat { if k.SetSessionId? then 0 else 2 }

  /** The sizes that make up a relay message: its id, its data and its padding. */
  datatype Relay = Relay(id: nat, kind: Kind, data: nat, confusion: nat) {
    function Size(): nat { FieldSize(id) + KindSize(kind) + FieldSize(data) + FieldSize(confusion) }
  }

  /** The number of padding bytes is drawn below this bound. */
  function ConfusionBound(data: nat): nat { data * CONFUSION_MAX_PROPORTION / 100 + CONFUSION_PAD_LEN }

  predicate Drawn(data: nat, confusion: nat) { confusion < ConfusionBound(data) }

  /** What one write makes of a relay message: the padding is drawn anew, and so is the id, which is the
      hash of the message. */
  function Padded(r: Relay, id: nat, confusion: nat): Relay { r.(id := id, confusion := confusion) }

  /** A relay message through several hops, each with its id length and its draw. */
  function Hops(r: Relay, draws: seq<(nat, nat)>): Relay
    decreases |draws|
  {
    if draws == [] then r else Hops(Padded(r, draws[0].0, draws[0].1), draws[1..])
  }

  ghost predicate DrawsOk(r: Relay, draws: seq<(nat, nat)>) {
    forall i :: 0 <= i < |draws| ==> draws[i].0 <= ID_CHARS && Drawn(r.data, draws[i].1)
  }

  /** The data of a relay message that carries `plain` bytes of plaintext, the application's length prefix
      included, for a session id of `sid` characters. */
  function DataSize(sid: nat, plain: nat): nat { FieldSize(sid) + FieldSize(plain + Framing.TAG + PREFIX) }

  function DataRelay(sid: nat, plain: nat): Relay { Relay(0, Data, DataSize(sid, plain), 0) }

  lemma {:induction false} VarintGrows(a: nat, b: nat)
    requires a <= b
    ensures VarintSize(a) <= VarintSize(b)
    decreases b
  {
    if b >= 128 && a >= 128 { VarintGrows(a / 128, b / 128); }
  }

  lemma FieldGrows(a: nat, b: nat)
    requires a <= b
    ensures FieldSize(a) <= FieldSize(b)
    ensures a < b ==> FieldSize(a) < FieldSize(b)
  {
    VarintGrows(a, b);
  }

  /** Neither the draw nor the number of hops can take a message beyond the size with the largest padding
      and the longest id, which depends on the data alone. */
  lemma {:induction false} PaddingNeverAccumulates(r: Relay, draws: seq<(nat, nat)>)
    requires DrawsOk(r, draws) && draws != []
    ensures var t := Hops(r, draws);
            && t.data == r.data && t.kind == r.kind && Drawn(r.data, t.confusion)
            && t.Size() <= Relay(ID_CHARS, r.kind, r.data, ConfusionBound(r.data) - 1).Size()
    decreases |draws|
  {
    var s := Padded(r, draws[0].0, draws[0].1);
    if |draws| == 1 {
      assert Hops(s, draws[1..]) == s;
      FieldGrows(draws[0].0, ID_CHARS);
      FieldGrows(draws[0].1, ConfusionBound(r.data) - 1);
    } else {
      assert DrawsOk(s, draws[1..]) by {
        assert forall i :: 0 <= i < |draws| - 1 ==> draws[1..][i] == draws[i + 1];
      }
      PaddingNeverAccumulates(s, draws[1..]);
    }
  }

  /** The size with the largest padding and the longest id. */
  function WorstSize(kind: Kind, data: nat): nat { Relay(ID_CHARS, kind, data, ConfusionBound(data) - 1).Size() }

  lemma WorstGrows(kind: Kind, a: nat, b: nat)
    requires a <= b
    ensures WorstSize(kind, a) <= WorstSize(kind, b)
    ensures a < b ==> WorstSize(kind, a) < WorstSize(kind, b)
  {
    FieldGrows(a, b);
    FieldGrows(ConfusionBound(a) - 1, ConfusionBound(b) - 1);
  }

  lemma DataGrows(s: nat, p: nat, t: nat, q: nat)
    requires s <= t && p <= q
    ensures DataSize(s, p) <= DataSize(t, q)
    ensures p < q ==> DataSize(s, p) < DataSize(t, q)
  {
    FieldGrows(s, t);
    FieldGrows(p + Framing.TAG + PREFIX, q + Framing.TAG + PREFIX);
  }

  lemma WorstAtLimit()
    ensures WorstSize(Data, DataSize(ID_CHARS, PLAINTEXT_LIMIT)) == READ_LIMIT
    ensures READ_LIMIT < WorstSize(Data, DataSize(ID_CHARS, PLAINTEXT_LIMIT + 1))
  {
    assert VarintSize(3618) == 2 && VarintSize(3619) == 2 && VarintSize(44) == 1;
    assert FieldSize(44) == 46 && FieldSize(3618) == 3621 && FieldSize(3619) == 3622;
    assert DataSize(ID_CHARS, PLAINTEXT_LIMIT) == 3667 && DataSize(ID_CHARS, PLAINTEXT_LIMIT + 1) == 3668;
    assert VarintSize(3667) == 2 && VarintSize(3668) == 2 && VarintSize(375) == 2;
    assert FieldSize(375) == 378;
  }

  /** For session ids of the longest form: a data message fits the reader at every hop, whatever is drawn
      there, if and only if the plaintext is not longer than the limit. */
  lemma AlwaysFitsExactlyIf(plain: nat)
    ensures (forall draws :: draws != [] && DrawsOk(DataRelay(ID_CHARS, plain), draws) ==>
                Hops(DataRelay(ID_CHARS, plain), draws).Size() <= READ_LIMIT)
            <==> plain <= PLAINTEXT_LIMIT
  {
    WorstAtLimit();
    var r := DataRelay(ID_CHARS, plain);
    if plain <= PLAINTEXT_LIMIT {
      forall draws: seq<(nat, nat)> | draws != [] && DrawsOk(r, draws) ensures Hops(r, draws).Size() <= READ_LIMIT {
        ShorterFits(ID_CHARS, plain, draws);
      }
    } else {
      DataGrows(ID_CHARS, PLAINTEXT_LIMIT + 1, ID_CHARS, plain);
      WorstGrows(Data, DataSize(ID_CHARS, PLAINTEXT_LIMIT + 1), DataSize(ID_CHARS, plain));
      var draws := [(ID_CHARS, ConfusionBound(r.data) - 1)];
      assert DrawsOk(r, draws);
      assert draws[1..] == [];
      assert Hops(r, draws) == Hops(Padded(r, draws[0].0, draws[0].1), []) ==
             Relay(ID_CHARS, Data, r.data, ConfusionBound(r.data) - 1);
      assert Hops(r, draws).Size() > READ_LIMIT;
    }
  }

  /** For the message itself that leaves four bytes less. */
  lemma MessageFitsExactlyIf(m: Framing.Bytes)
    ensures (forall draws :: draws != [] && DrawsOk(DataRelay(ID_CHARS, |Framing.Prefixed(m)|), draws) ==>
                Hops(DataRelay(ID_CHARS, |Framing.Prefixed(m)|), draws).Size() <= READ_LIMIT)
            <==> |m| <= 3596
  {
    AlwaysFitsExactlyIf(|Framing.Prefixed(m)|);
  }

  /** Shorter session ids leave room to spare. */
  lemma ShorterFits(sid: nat, plain: nat, draws: seq<(nat, nat)>)
    requires sid <= ID_CHARS && plain <= PLAINTEXT_LIMIT && draws != [] && DrawsOk(DataRelay(sid, plain), draws)
    ensures Hops(DataRelay(sid, plain), draws).Size() <= READ_LIMIT
  {
    PaddingNeverAccumulates(DataRelay(sid, plain), draws);
    DataGrows(sid, plain, ID_CHARS, PLAINTEXT_LIMIT);
    WorstGrows(Data, DataSize(sid, plain), DataSize(ID_CHARS, PLAINTEXT_LIMIT));
    WorstAtLimit();
  }

  /** The other messages carry at most a session id and a 32-byte hash, and always fit. */
  lemma ControlFits(kind: Kind, data: nat, draws: seq<(nat, nat)>)
    requires data <= FieldSize(ID_CHARS) + FieldSize(32) && draws != [] && DrawsOk(Relay(0, kind, data, 0), draws)
    ensures Hops(Relay(0, kind, data, 0), draws).Size() <= READ_LIMIT
  {
    PaddingNeverAccumulates(Relay(0, kind, data, 0), draws);
    assert FieldSize(ID_CHARS) + FieldSize(32) == 80;
    WorstGrows(kind, data, 80);
    assert FieldSize(80) == 82 && FieldSize(44) == 46 && FieldSize(17) == 19;
  }

  /** The source's test of the padding asks that it be at most a tenth of the data. For every length of
      data a draw is allowed that exceeds this. */
  lemma PaddingMayExceedTenth(data: nat)
    ensures exists confusion: nat :: Drawn(data, confusion) && !(confusion <= data * CONFUSION_MAX_PROPORTION / 100)
  {
    assert Drawn(data, data * CONFUSION_MAX_PROPORTION / 100 + 1);
  }
}
