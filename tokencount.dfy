/** Token accounting of `_count_message_tokens` and the eviction point of `flush_to_summary`. */
module TokenCount {
  import opened Messages

  /** The tokenizer: `len(tokenizer.encode(s))`, left abstract. */
  type Encoder = string -> nat

  /** The values of a message record in key order: the role first, then the content. */
  function FieldValues(m: Message): seq<string>
  {
    [RoleName(m.role), m.content]
  }

  /** The encoded length of each value, summed. */
  function SumEncoded(enc: Encoder, vals: seq<string>): nat
  {
    if vals == [] then 0 else enc(vals[0]) + SumEncoded(enc, vals[1..])
  }

  /** What one message costs: 4, each field's encoded length, and the 2 of the reply priming. */
  function MessageCost(enc: Encoder, m: Message): nat
  {
    4 + SumEncoded(enc, FieldValues(m)) + 2
  }

  /** A message costs six tokens plus its role's and its content's encoded lengths. */
  lemma MessageCostValue(enc: Encoder, m: Message)
    ensures MessageCost(enc, m) == 6 + enc(RoleName(m.role)) + enc(m.content)
    ensures MessageCost(enc, m) >= 6
  {
    var vs := FieldValues(m);
    assert vs[1..] == [m.content];
    assert vs[1..][1..] == [];
    assert SumEncoded(enc, vs[1..]) == enc(m.content) + SumEncoded(enc, vs[1..][1..]);
  }

  /** The token count of a list of messages. */
  function Tokens(enc: Encoder, ms: seq<Message>): nat
  {
    if ms == [] then 0 else MessageCost(enc, ms[0]) + Tokens(enc, ms[1..])
  }

  /** The count is additive over concatenation. */
  lemma {:induction false} TokensAppend(enc: Encoder, a: seq<Message>, b: seq<Message>)
    ensures Tokens(enc, a + b) == Tokens(enc, a) + Tokens(enc, b)
  {
    if a == [] {
      assert a + b == b;
    } else {
      assert (a + b)[0] == a[0];
      assert (a + b)[1..] == a[1..] + b;
      TokensAppend(enc, a[1..], b);
    }
  }

  /** Appending a message raises the count by its cost, at least 6. */
  lemma TokensSnoc(enc: Encoder, ms: seq<Message>, m: Message)
    ensures Tokens(enc, ms + [m]) == Tokens(enc, ms) + 6 + enc(RoleName(m.role)) + enc(m.content)
    ensures Tokens(enc, ms + [m]) > Tokens(enc, ms)
  {
    TokensAppend(enc, ms, [m]);
    assert [m][1..] == [];
    MessageCostValue(enc, m);
  }

  /** The head message and the rest split the count, and the head costs at least 6. */
  lemma TokensCons(enc: Encoder, ms: seq<Message>)
    requires ms != []
    ensures Tokens(enc, ms) >= Tokens(enc, ms[1..]) + 6
  {
    MessageCostValue(enc, ms[0]);
  }

  /** Every message costs at least 6, so a list costs at least six times its length. */
  lemma {:induction false} TokensLowerBound(enc: Encoder, ms: seq<Message>)
    ensures Tokens(enc, ms) >= 6 * |ms|
    ensures Tokens(enc, ms) == 0 <==> ms == []
  {
    if ms != [] {
      TokensCons(enc, ms);
      TokensLowerBound(enc, ms[1..]);
    }
  }

  /** Dropping a longer prefix leaves a strictly smaller count. */
  lemma {:induction false} TokensSuffixDecrease(enc: Encoder, ms: seq<Message>, j: nat, k: nat)
    requires j < k <= |ms|
    ensures Tokens(enc, ms[k..]) + 6 * (k - j) <= Tokens(enc, ms[j..])
    decreases k - j
  {
    TokensCons(enc, ms[j..]);
    assert ms[j..][1..] == ms[j + 1..];
    if j + 1 < k {
      TokensSuffixDecrease(enc, ms, j + 1, k);
    }
  }

  /**
   * How many messages `flush_to_summary` pops from the head: none once the list fits `target`,
   * otherwise one more than for the list without its head. (The empty list never pops.)
   */
  function EvictCount(enc: Encoder, ms: seq<Message>, target: int): (k: nat)
    ensures k <= |ms|
  {
    if ms == [] || Tokens(enc, ms) <= target then 0 else 1 + EvictCount(enc, ms[1..], target)
  }

  /**
   * The eviction point is the first one where the rest fits: with a non-negative target the
   * rest fits, with a negative one everything is popped, and every longer suffix is over the target.
   */
  lemma {:induction false} EvictCountSpec(enc: Encoder, ms: seq<Message>, target: int)
    ensures var k := EvictCount(enc, ms, target);
            && (target >= 0 ==> Tokens(enc, ms[k..]) <= target)
            && (target < 0 ==> k == |ms|)
            && forall j :: 0 <= j < k ==> Tokens(enc, ms[j..]) > target
  {
    if ms != [] && Tokens(enc, ms) > target {
      var k' := EvictCount(enc, ms[1..], target);
      EvictCountSpec(enc, ms[1..], target);
      assert forall j :: 0 < j <= k' ==> ms[j..] == ms[1..][j - 1..];
      assert ms[1 + k'..] == ms[1..][k'..];
      assert ms[0..] == ms;
    }
  }

  /** The eviction point is the only one where the rest fits and every longer suffix does not. */
  lemma EvictCountUnique(enc: Encoder, ms: seq<Message>, target: int, k: nat)
    requires k <= |ms|
    requires Tokens(enc, ms[k..]) <= target || k == |ms|
    requires forall j :: 0 <= j < k ==> Tokens(enc, ms[j..]) > target
    ensures k == EvictCount(enc, ms, target)
  {
    EvictCountSpec(enc, ms, target);
  }

  /** A flush that pops at least one message strictly lowers the count. */
  lemma EvictLowersCount(enc: Encoder, ms: seq<Message>, target: int)
    requires EvictCount(enc, ms, target) > 0
    ensures Tokens(enc, ms[EvictCount(enc, ms, target)..]) < Tokens(enc, ms)
  {
    assert ms[0..] == ms;
    EvictCountSpec(enc, ms, target);
    TokensSuffixDecrease(enc, ms, 0, EvictCount(enc, ms, target));
  }
}
