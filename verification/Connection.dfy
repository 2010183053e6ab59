/** The 256-bit set of observed subcommand ids, held in four words (`src/runtime/connection.rs`). */
module Connection {
  import opened Types

  /** What the host has asked for in this session: every id seen, and the latest one. */
  datatype Observations = Observations(ids: iset<Byte>, last: Option<Byte>)

  const NOTHING_OBSERVED: Observations := Observations(iset{}, None)

  function Observe(o: Observations, id: Byte): Observations {
    Observations(o.ids + iset{id}, Some(id))
  }

  function Word(id: Byte): (w: nat)
    ensures w < 4
  {
    (id / 64) as nat
  }

  function Mask(id: Byte): bv64 {
    (1 as bv64) << ((id % 64) as bv6)
  }

  predicate Has(words: seq<bv64>, id: Byte)
    requires |words| == 4
  {
    words[Word(id)] & Mask(id) != 0
  }

  ghost function Ids(words: seq<bv64>): iset<Byte>
    requires |words| == 4
  {
    iset id: Byte | Has(words, id)
  }

  /** Slots never alias: setting one id's bit changes the membership of that id only. */
  lemma SlotsAreSeparate(word: bv64, a: Byte, b: Byte)
    requires a / 64 == b / 64
    ensures (word | Mask(b)) & Mask(a) != 0 <==> a == b || word & Mask(a) != 0
  {
  }

  /** The words after setting the bit of one id. */
  function SetBit(words: seq<bv64>, id: Byte): (after: seq<bv64>)
    requires |words| == 4
    ensures |after| == 4
  {
    words[Word(id) := words[Word(id)] | Mask(id)]
  }

  lemma SetBitKeepsOthers(words: seq<bv64>, id: Byte, other: Byte)
    requires |words| == 4
    ensures Has(SetBit(words, id), other) <==> Has(words, other) || other == id
  {
  }

  lemma SetBitAddsOneId(words: seq<bv64>, id: Byte)
    requires |words| == 4
    ensures Ids(SetBit(words, id)) == Ids(words) + iset{id}
  {
    forall other: Byte
      ensures Has(SetBit(words, id), other) <==> Has(words, other) || other == id
    {
      SetBitKeepsOthers(words, id, other);
    }
  }

  /** The lowest `count` bits of a word. */
  function LowBits(word: bv64, count: bv8): bv64
    requires count <= 64
  {
    word & (((1 as bv64) << (count as bv7)) - 1)
  }

  lemma OneMoreLowBit(word: bv64, count: bv8)
    requires count < 64
    ensures LowBits(word, count) == 0 && word & Mask(count) == 0 ==> LowBits(word, count + 1) == 0
  {
  }

  lemma AllLowBits(word: bv64)
    ensures LowBits(word, 64) == word
  {
  }

  lemma SlotOfSum(base: Byte, count: bv8)
    requires count < 64 && base % 64 == 0
    ensures (base + count) / 64 == base / 64 && Mask(base + count) == Mask(count)
  {
  }

  lemma NonZeroWordHasALowBit(word: bv64) returns (count: bv8)
    requires word != 0
    ensures count < 64 && word & Mask(count) != 0
  {
    AllLowBits(word);
    count := 0;
    while count < 64
      invariant count <= 64
      invariant LowBits(word, count) == 0
    {
      OneMoreLowBit(word, count);
      if word & Mask(count) != 0 {
        return;
      }
      count := count + 1;
    }
    assert false;
  }

  /** A non-zero word holds the bit of some id of its slot. */
  lemma NonZeroWordHasABit(word: bv64, base: Byte) returns (id: Byte)
    requires word != 0 && base % 64 == 0
    ensures id / 64 == base / 64 && word & Mask(id) != 0
  {
    var count := NonZeroWordHasALowBit(word);
    SlotOfSum(base, count);
    id := base + count;
  }

  /** The set is empty exactly when all four words are zero. */
  lemma EmptyIffAllWordsZero(words: seq<bv64>)
    requires |words| == 4
    ensures Ids(words) == iset{} <==> forall w :: 0 <= w < 4 ==> words[w] == 0
  {
    forall w | 0 <= w < 4 && words[w] != 0
      ensures Ids(words) != iset{}
    {
      var bases: seq<Byte> := [0, 64, 128, 192];
      var id := NonZeroWordHasABit(words[w], bases[w]);
      assert Word(id) == w;
      assert id in Ids(words);
    }
  }

  class ObservedSubcommands {
    const words: array<bv64>
    var last: Option<Byte>

    ghost predicate Valid() {
      words.Length == 4
    }

    ghost function State(): Observations
      reads this, words
      requires Valid()
    {
      Observations(Ids(words[..]), last)
    }

    constructor ()
      ensures Valid() && fresh(words) && State() == NOTHING_OBSERVED
    {
      words := new bv64[4](_ => 0);
      last := None;
      new;
      EmptyIffAllWordsZero(words[..]);
    }

    method Store(word: nat, bits: bv64)
      requires Valid() && word < 4
      modifies words
      ensures words[..] == old(words[..])[word := bits]
    {
      words[word] := bits;
    }

    method ObserveId(id: Byte) returns (first: bool)
      requires Valid()
      modifies this, words
      ensures State() == Observe(old(State()), id)
      ensures first <==> id !in old(State()).ids
    {
      SetBitAddsOneId(words[..], id);
      var word, mask := Word(id), Mask(id);
      last := Some(id);
      first := words[word] & mask == 0;
      Store(word, words[word] | mask);
    }

    method IsEmpty() returns (empty: bool)
      requires Valid()
      ensures empty <==> State().ids == iset{}
    {
      EmptyIffAllWordsZero(words[..]);
      empty := true;
      for w := 0 to 4
        invariant empty <==> forall i :: 0 <= i < w ==> words[..][i] == 0
      {
        empty := empty && words[w] == 0;
      }
    }

    method Reset()
      requires Valid()
      modifies this, words
      ensures State() == NOTHING_OBSERVED
    {
      for w := 0 to 4
        invariant forall i :: 0 <= i < w ==> words[i] == 0
        modifies words
      {
        words[w] := 0;
      }
      last := None;
      EmptyIffAllWordsZero(words[..]);
    }
  }

  function ObserveAll(o: Observations, ids: seq<Byte>): Observations {
    if ids == [] then o else Observe(ObserveAll(o, ids[..|ids| - 1]), ids[|ids| - 1])
  }

  /** Over a whole session the set holds exactly the ids observed since the reset, and `last` the latest. */
  lemma {:induction false} SessionObservations(ids: seq<Byte>)
    ensures forall id: Byte :: id in ObserveAll(NOTHING_OBSERVED, ids).ids <==> id in ids
    ensures ObserveAll(NOTHING_OBSERVED, ids).last == if ids == [] then None else Some(ids[|ids| - 1])
  {
    if ids != [] {
      SessionObservations(ids[..|ids| - 1]);
      assert ids == ids[..|ids| - 1] + [ids[|ids| - 1]];
    }
  }
}
