/** The outer transaction: every instruction sorted into one bucket, and which
    of them the enterprise gate will put up with. */
module Bundle {
  import opened Wrappers
  import opened Bytes
  import opened State
  import opened Reader
  import opened Ids

  datatype OuterInstruction = OuterInstruction(programId: Key, keys: seq<Key>, data: seq<Byte>)

  datatype Outer = Outer(feePayer: Option<Key>, instructions: seq<OuterInstruction>)

  datatype ComputeBudgetIx = ComputeBudgetIx(index: nat, tag: int, value: Option<nat>)

  datatype AtaCreateIx = AtaCreateIx(
    index: nat,
    funder: Option<Key>,
    ata: Option<Key>,
    owner: Option<Key>,
    mint: Option<Key>,
    tokenProgram: Option<Key>,
    dataOk: bool)

  datatype MultisigIx = MultisigIx(index: nat, keys: seq<Key>, data: seq<Byte>)

  datatype CreateIx = CreateIx(index: nat, keys: seq<Key>, data: seq<Byte>, inner: InnerMessage)

  datatype ParsedBundle = ParsedBundle(
    feePayer: Option<Key>,
    nonceAdvances: seq<nat>,
    computeBudget: seq<ComputeBudgetIx>,
    ataCreates: seq<AtaCreateIx>,
    creates: seq<CreateIx>,
    approves: seq<MultisigIx>,
    executes: seq<MultisigIx>,
    closes: seq<MultisigIx>,
    foreign: seq<nat>)

  // ---- what kind of instruction it is ----

  datatype Kind = NonceAdvance | ComputeBudget | AtaCreate | Create | Approve | Execute | Close | Alien

  function Discriminator(data: seq<Byte>): seq<Byte> { if |data| < 8 then data else data[..8] }

  function KindOf(multisigProgram: Key, ix: OuterInstruction): Kind {
    if ix.programId == SYSTEM_PROGRAM then
      if |ix.data| >= 4 && Value(ix.data[0..4]) == SYSTEM_IX_TAG_NONCE_ADVANCE then NonceAdvance else Alien
    else if ix.programId == COMPUTE_BUDGET_PROGRAM then ComputeBudget
    else if ix.programId == ATA_PROGRAM then AtaCreate
    else if ix.programId == multisigProgram then
      var disc := Discriminator(ix.data);
      if disc == CREATE_TRANSACTION_DISCRIMINATOR then Create
      else if disc == APPROVE_TRANSACTION_DISCRIMINATOR then Approve
      else if disc == EXECUTE_TRANSACTION_DISCRIMINATOR then Execute
      else if disc == CLOSE_TRANSACTION_DISCRIMINATOR then Close
      else Alien
    else Alien
  }

  function BudgetTag(data: seq<Byte>): int { if data == [] then -1 else data[0] }

  // The limit or price asked for; anything else has no value.
  function BudgetValue(data: seq<Byte>): Option<nat> {
    if BudgetTag(data) == COMPUTE_BUDGET_TAG_SET_UNIT_LIMIT && |data| == 5 then Some(Value(data[1..5]))
    else if BudgetTag(data) == COMPUTE_BUDGET_TAG_SET_UNIT_PRICE && |data| == 9 then Some(Value(data[1..9]))
    else None
  }

  function KeyAt(keys: seq<Key>, i: nat): Option<Key> { if i < |keys| then Some(keys[i]) else None }

  // The vault index and message a create_transaction instruction carries.
  function CreateMessage(data: seq<Byte>): Option<(Byte, TransactionMessage)> {
    if |data| < 9 then None else
    var (m, _) :- DecMessage(data, 9);
    Some((data[8], m))
  }

  function InnerOf(data: seq<Byte>): InnerMessage {
    match CreateMessage(data)
    case None => InnerMessage(0, [], [], 0)
    case Some((vaultIndex, m)) => Abridged(vaultIndex, m)
  }

  function AsIndex(i: nat, ix: OuterInstruction): nat { i }

  function AsBudget(i: nat, ix: OuterInstruction): ComputeBudgetIx {
    ComputeBudgetIx(i, BudgetTag(ix.data), BudgetValue(ix.data))
  }

  // Accounts: funder, account, owner, mint, System, token program.
  function AsAtaCreate(i: nat, ix: OuterInstruction): AtaCreateIx {
    AtaCreateIx(i, KeyAt(ix.keys, 0), KeyAt(ix.keys, 1), KeyAt(ix.keys, 2), KeyAt(ix.keys, 3), KeyAt(ix.keys, 5),
                ix.data == [] || ix.data == [0] || ix.data == [1])
  }

  function AsMultisig(i: nat, ix: OuterInstruction): MultisigIx { MultisigIx(i, ix.keys, ix.data) }

  function AsCreate(i: nat, ix: OuterInstruction): CreateIx { CreateIx(i, ix.keys, ix.data, InnerOf(ix.data)) }

  // The instructions of one kind, in order, each with its position.
  function Collect<T>(program: Key, ixs: seq<OuterInstruction>, kind: Kind, f: (nat, OuterInstruction) -> T): seq<T> {
    if ixs == [] then [] else
    var n := |ixs| - 1;
    Collect(program, ixs[..n], kind, f) + (if KindOf(program, ixs[n]) == kind then [f(n, ixs[n])] else [])
  }

  function Positions(program: Key, ixs: seq<OuterInstruction>, kind: Kind): seq<nat> {
    Collect<nat>(program, ixs, kind, AsIndex)
  }

  ghost predicate ParsedAs(program: Key, ixs: seq<OuterInstruction>, b: ParsedBundle) {
    && b.nonceAdvances == Positions(program, ixs, NonceAdvance)
    && b.computeBudget == Collect(program, ixs, ComputeBudget, AsBudget)
    && b.ataCreates == Collect(program, ixs, AtaCreate, AsAtaCreate)
    && b.creates == Collect(program, ixs, Create, AsCreate)
    && b.approves == Collect(program, ixs, Approve, AsMultisig)
    && b.executes == Collect(program, ixs, Execute, AsMultisig)
    && b.closes == Collect(program, ixs, Close, AsMultisig)
    && b.foreign == Positions(program, ixs, Alien)
  }

  // A create_transaction whose message does not decode fails the whole bundle.
  predicate CreateDecodes(program: Key, ix: OuterInstruction) {
    KindOf(program, ix) == Create ==> CreateMessage(ix.data).Some?
  }

  predicate CreatesDecode(program: Key, ixs: seq<OuterInstruction>) {
    forall i | 0 <= i < |ixs| :: CreateDecodes(program, ixs[i])
  }

  // ---- the parser ----

  method ParseCreateTransactionData(data: seq<Byte>) returns (r: Option<InnerMessage>)
    ensures r.None? <==> CreateMessage(data).None?
    ensures r.Some? ==> r.value == InnerOf(data)
  {
    var reader := new ByteReader(data);
    var disc :- reader.Take(8);
    var vaultIndex :- reader.U8();
    r := ParseTransactionMessage(reader, vaultIndex);
  }

  method ParseComputeBudget(index: nat, data: seq<Byte>) returns (r: ComputeBudgetIx)
    ensures r == ComputeBudgetIx(index, BudgetTag(data), BudgetValue(data))
  {
    var value: Option<nat> := None;
    var tag: int := if |data| > 0 then data[0] else -1;
    if tag == COMPUTE_BUDGET_TAG_SET_UNIT_LIMIT && |data| == 5 {
      value := Some(Value(data[1..5]));
    } else if tag == COMPUTE_BUDGET_TAG_SET_UNIT_PRICE && |data| == 9 {
      var v := ReadU64LE(data, 1);
      value := Some(v);
    }
    r := ComputeBudgetIx(index, tag, value);
  }

  lemma CollectSnoc<T>(program: Key, ixs: seq<OuterInstruction>, n: nat, kind: Kind, f: (nat, OuterInstruction) -> T)
    requires n < |ixs|
    ensures Collect(program, ixs[..n + 1], kind, f)
            == Collect(program, ixs[..n], kind, f) + (if KindOf(program, ixs[n]) == kind then [f(n, ixs[n])] else [])
  {
    assert ixs[..n + 1][..n] == ixs[..n];
  }

  // The bundle with one more instruction in its bucket.
  function Extend(program: Key, b: ParsedBundle, i: nat, ix: OuterInstruction): ParsedBundle {
    match KindOf(program, ix)
    case NonceAdvance => b.(nonceAdvances := b.nonceAdvances + [i])
    case ComputeBudget => b.(computeBudget := b.computeBudget + [AsBudget(i, ix)])
    case AtaCreate => b.(ataCreates := b.ataCreates + [AsAtaCreate(i, ix)])
    case Create => b.(creates := b.creates + [AsCreate(i, ix)])
    case Approve => b.(approves := b.approves + [AsMultisig(i, ix)])
    case Execute => b.(executes := b.executes + [AsMultisig(i, ix)])
    case Close => b.(closes := b.closes + [AsMultisig(i, ix)])
    case Alien => b.(foreign := b.foreign + [i])
  }

  ghost predicate Extends(program: Key, b: ParsedBundle, i: nat, ix: OuterInstruction, r: Option<ParsedBundle>) {
    if CreateDecodes(program, ix) then r == Some(Extend(program, b, i, ix)) else r == None
  }

  lemma ExtendParses(program: Key, ixs: seq<OuterInstruction>, n: nat, b: ParsedBundle)
    requires n < |ixs| && ParsedAs(program, ixs[..n], b)
    ensures ParsedAs(program, ixs[..n + 1], Extend(program, b, n, ixs[n]))
  {
    CollectSnoc(program, ixs, n, NonceAdvance, AsIndex);
    CollectSnoc(program, ixs, n, ComputeBudget, AsBudget);
    CollectSnoc(program, ixs, n, AtaCreate, AsAtaCreate);
    CollectSnoc(program, ixs, n, Create, AsCreate);
    CollectSnoc(program, ixs, n, Approve, AsMultisig);
    CollectSnoc(program, ixs, n, Execute, AsMultisig);
    CollectSnoc(program, ixs, n, Close, AsMultisig);
    CollectSnoc(program, ixs, n, Alien, AsIndex);
  }

  // Adds one instruction to its bucket; None if its message does not decode.
  method AddInstruction(program: Key, ix: OuterInstruction, index: nat, b: ParsedBundle)
      returns (r: Option<ParsedBundle>)
    ensures Extends(program, b, index, ix, r)
  {
    var data, keys := ix.data, ix.keys;
    if ix.programId == SYSTEM_PROGRAM {
      if |data| >= 4 && Value(data[0..4]) == SYSTEM_IX_TAG_NONCE_ADVANCE {
        return Some(b.(nonceAdvances := b.nonceAdvances + [index]));
      }
      return Some(b.(foreign := b.foreign + [index]));
    }
    if ix.programId == COMPUTE_BUDGET_PROGRAM {
      var cb := ParseComputeBudget(index, data);
      return Some(b.(computeBudget := b.computeBudget + [cb]));
    }
    if ix.programId == ATA_PROGRAM {
      var dataOk := |data| == 0 || (|data| == 1 && (data[0] == 0 || data[0] == 1));
      assert dataOk == (data == [] || data == [0] || data == [1]);
      var ata := AtaCreateIx(index, KeyAt(keys, 0), KeyAt(keys, 1), KeyAt(keys, 2), KeyAt(keys, 3), KeyAt(keys, 5),
                             dataOk);
      return Some(b.(ataCreates := b.ataCreates + [ata]));
    }
    if ix.programId == program {
      var disc := Discriminator(data);
      if disc == CREATE_TRANSACTION_DISCRIMINATOR {
        var inner :- ParseCreateTransactionData(data);
        return Some(b.(creates := b.creates + [CreateIx(index, keys, data, inner)]));
      }
      if disc == APPROVE_TRANSACTION_DISCRIMINATOR {
        return Some(b.(approves := b.approves + [MultisigIx(index, keys, data)]));
      }
      if disc == EXECUTE_TRANSACTION_DISCRIMINATOR {
        return Some(b.(executes := b.executes + [MultisigIx(index, keys, data)]));
      }
      if disc == CLOSE_TRANSACTION_DISCRIMINATOR {
        return Some(b.(closes := b.closes + [MultisigIx(index, keys, data)]));
      }
      return Some(b.(foreign := b.foreign + [index]));
    }
    return Some(b.(foreign := b.foreign + [index]));
  }

  // The bundle after the instructions of a prefix.
  function Bundled(program: Key, feePayer: Option<Key>, ixs: seq<OuterInstruction>): ParsedBundle {
    if ixs == [] then ParsedBundle(feePayer, [], [], [], [], [], [], [], []) else
    var n := |ixs| - 1;
    Extend(program, Bundled(program, feePayer, ixs[..n]), n, ixs[n])
  }

  lemma BundledSnoc(program: Key, feePayer: Option<Key>, ixs: seq<OuterInstruction>, n: nat)
    requires n < |ixs|
    ensures Bundled(program, feePayer, ixs[..n + 1]) == Extend(program, Bundled(program, feePayer, ixs[..n]), n, ixs[n])
  {
    assert ixs[..n + 1][..n] == ixs[..n];
  }

  // It holds each kind's instructions in that kind's bucket.
  lemma {:induction false} BundledParses(program: Key, feePayer: Option<Key>, ixs: seq<OuterInstruction>)
    ensures ParsedAs(program, ixs, Bundled(program, feePayer, ixs))
            && Bundled(program, feePayer, ixs).feePayer == feePayer
  {
    if ixs == [] {
    } else {
      var n := |ixs| - 1;
      BundledParses(program, feePayer, ixs[..n]);
      ExtendParses(program, ixs, n, Bundled(program, feePayer, ixs[..n]));
      assert ixs[..n + 1] == ixs;
    }
  }

  // Everything before position n decoded, into this bundle.
  ghost predicate Parsed(program: Key, outer: Outer, n: nat, b: ParsedBundle) {
    && n <= |outer.instructions| && CreatesDecode(program, outer.instructions[..n])
    && b == Bundled(program, outer.feePayer, outer.instructions[..n])
  }

  lemma ParseStep(program: Key, outer: Outer, n: nat, b: ParsedBundle, more: Option<ParsedBundle>)
    requires n < |outer.instructions| && Parsed(program, outer, n, b)
             && Extends(program, b, n, outer.instructions[n], more)
    ensures if more.Some? then Parsed(program, outer, n + 1, more.value)
            else !CreatesDecode(program, outer.instructions)
  {
    var head, next := outer.instructions[..n], outer.instructions[..n + 1];
    assert next[..n] == head;
    if more.Some? {
      forall i | 0 <= i < |next| ensures CreateDecodes(program, next[i]) {
        if i < n { assert next[i] == head[i]; }
      }
    }
  }

  method ParseBundle(outer: Outer, program: Key) returns (r: Option<ParsedBundle>)
    ensures r == if CreatesDecode(program, outer.instructions)
                 then Some(Bundled(program, outer.feePayer, outer.instructions)) else None
  {
    var b := ParsedBundle(outer.feePayer, [], [], [], [], [], [], [], []);
    for index := 0 to |outer.instructions|
      invariant Parsed(program, outer, index, b)
    {
      var more := AddInstruction(program, outer.instructions[index], index, b);
      ParseStep(program, outer, index, b, more);
      if more.None? { return None; }
      b := more.value;
    }
    assert outer.instructions[..|outer.instructions|] == outer.instructions;
    return Some(b);
  }

  // ---- the buckets are a partition ----

  // Position i is in the bucket of its kind and in no other.
  lemma {:induction false} InOneBucket(program: Key, ixs: seq<OuterInstruction>, kind: Kind, i: nat)
    ensures i in Positions(program, ixs, kind) <==> i < |ixs| && KindOf(program, ixs[i]) == kind
  {
    if ixs == [] {
    } else {
      InOneBucket(program, ixs[..|ixs| - 1], kind, i);
    }
  }

  ghost predicate Ascending(s: seq<nat>) { forall p, q | 0 <= p < q < |s| :: s[p] < s[q] }

  ghost predicate Lists<T(!new)>(program: Key, ixs: seq<OuterInstruction>, kind: Kind, f: (nat, OuterInstruction) -> T,
      at: seq<nat>, entries: seq<T>)
  {
    && |entries| == |at|
    && forall q | 0 <= q < |at| ::
        at[q] < |ixs| && KindOf(program, ixs[at[q]]) == kind && entries[q] == f(at[q], ixs[at[q]])
  }

  lemma AscendingSnoc(s: seq<nat>, n: nat)
    requires Ascending(s) && forall p | 0 <= p < |s| :: s[p] < n
    ensures Ascending(s + [n])
  {}

  // Buckets keep the order of the transaction.
  lemma {:induction false} PositionsAscend(program: Key, ixs: seq<OuterInstruction>, kind: Kind)
    ensures Ascending(Positions(program, ixs, kind))
    ensures forall q | 0 <= q < |Positions(program, ixs, kind)| :: Positions(program, ixs, kind)[q] < |ixs|
  {
    if ixs == [] {
    } else {
      var n := |ixs| - 1;
      PositionsAscend(program, ixs[..n], kind);
      AscendingSnoc(Positions(program, ixs[..n], kind), n);
      assert Positions(program, ixs[..n], kind) + [] == Positions(program, ixs[..n], kind);
    }
  }

  // Every entry of a bucket describes the instruction at its position.
  lemma {:induction false} EntriesDescribe<T(!new)>(program: Key, ixs: seq<OuterInstruction>, kind: Kind,
      f: (nat, OuterInstruction) -> T)
    ensures Lists(program, ixs, kind, f, Positions(program, ixs, kind), Collect(program, ixs, kind, f))
  {
    if ixs == [] {
    } else {
      var n := |ixs| - 1;
      EntriesDescribe(program, ixs[..n], kind, f);
    }
  }

  lemma BucketsInOrder<T(!new)>(program: Key, ixs: seq<OuterInstruction>, kind: Kind, f: (nat, OuterInstruction) -> T)
    ensures Ascending(Positions(program, ixs, kind))
    ensures Lists(program, ixs, kind, f, Positions(program, ixs, kind), Collect(program, ixs, kind, f))
  {
    PositionsAscend(program, ixs, kind);
    EntriesDescribe(program, ixs, kind, f);
  }

  // Together the eight buckets hold every instruction once.
  lemma {:induction false} BucketSizes(program: Key, ixs: seq<OuterInstruction>)
    ensures |ixs| == |Positions(program, ixs, NonceAdvance)| + |Positions(program, ixs, ComputeBudget)|
                   + |Positions(program, ixs, AtaCreate)| + |Positions(program, ixs, Create)|
                   + |Positions(program, ixs, Approve)| + |Positions(program, ixs, Execute)|
                   + |Positions(program, ixs, Close)| + |Positions(program, ixs, Alien)|
  {
    if ixs == [] {
    } else {
      BucketSizes(program, ixs[..|ixs| - 1]);
    }
  }

  // ---- the enterprise allowlist ----

  datatype PriceCap = NoCap | AtMost(amount: Amount)

  datatype BudgetCaps = BudgetCaps(maxUnitLimit: Option<int>, maxUnitPrice: PriceCap)

  predicate WithinCaps(tag: int, value: nat, caps: BudgetCaps) {
    if tag == COMPUTE_BUDGET_TAG_SET_UNIT_LIMIT then caps.maxUnitLimit.Some? ==> value <= caps.maxUnitLimit.value
    else
      var cap := caps.maxUnitPrice;
      tag == COMPUTE_BUDGET_TAG_SET_UNIT_PRICE && (cap.NoCap? || (cap.amount.Number? && value <= cap.amount.n))
  }

  // Within its cap, and the first ComputeBudget instruction with its tag.
  predicate BudgetAllowed(program: Key, ixs: seq<OuterInstruction>, caps: Option<BudgetCaps>, i: nat)
    requires i < |ixs|
  {
    var tag, value := BudgetTag(ixs[i].data), BudgetValue(ixs[i].data);
    && caps.Some? && value.Some? && WithinCaps(tag, value.value, caps.value)
    && forall j | 0 <= j < i && KindOf(program, ixs[j]) == ComputeBudget :: BudgetTag(ixs[j].data) != tag
  }

  predicate FunderAllowed(feePayer: Option<Key>, ix: OuterInstruction) {
    feePayer.Some? && ix.keys != [] ==> ix.keys[0] == feePayer.value
  }

  // What may stand at position i of the outer transaction.
  predicate Allowed(outer: Outer, program: Key, caps: Option<BudgetCaps>, i: nat)
    requires i < |outer.instructions|
  {
    match KindOf(program, outer.instructions[i])
    case Alien => false
    case AtaCreate => FunderAllowed(outer.feePayer, outer.instructions[i])
    case ComputeBudget => BudgetAllowed(program, outer.instructions, caps, i)
    case _ => true
  }

  // Flagged are exactly the positions of what is not allowed.
  ghost predicate FlagsUnknown(outer: Outer, program: Key, caps: Option<BudgetCaps>, flagged: set<nat>) {
    forall i: nat :: i in flagged <==> i < |outer.instructions| && !Allowed(outer, program, caps, i)
  }

  // Flagged are the bad ones among the positions.
  ghost predicate Picks(flagged: set<nat>, at: seq<nat>, bad: nat -> bool) {
    forall i: nat :: i in flagged <==> i in at && bad(i)
  }

  lemma PicksSnoc(flagged: set<nat>, at: seq<nat>, q: nat, bad: nat -> bool)
    requires q < |at| && Picks(flagged, at[..q], bad)
    ensures Picks(if bad(at[q]) then flagged + {at[q]} else flagged, at[..q + 1], bad)
  {
    assert at[..q + 1] == at[..q] + [at[q]];
  }

  // Of the instructions of one kind, flagged are the bad ones.
  ghost predicate FlagsKind(ixs: seq<OuterInstruction>, program: Key, kind: Kind, bad: nat -> bool, flagged: set<nat>) {
    forall i: nat :: i in flagged <==> i < |ixs| && KindOf(program, ixs[i]) == kind && bad(i)
  }

  lemma AllPicked(ixs: seq<OuterInstruction>, program: Key, kind: Kind, bad: nat -> bool, flagged: set<nat>)
    requires Picks(flagged, Positions(program, ixs, kind), bad)
    ensures FlagsKind(ixs, program, kind, bad, flagged)
  {
    forall i: nat ensures i in flagged <==> i < |ixs| && KindOf(program, ixs[i]) == kind && bad(i) {
      InOneBucket(program, ixs, kind, i);
    }
  }

  ghost function BadFunder(feePayer: Option<Key>, ixs: seq<OuterInstruction>): nat -> bool {
    (i: nat) => i < |ixs| && !FunderAllowed(feePayer, ixs[i])
  }

  ghost function BadBudget(program: Key, ixs: seq<OuterInstruction>, caps: Option<BudgetCaps>): nat -> bool {
    (i: nat) => i < |ixs| && !BudgetAllowed(program, ixs, caps, i)
  }

  // The three kinds that can be flagged make up all there is.
  lemma KindsFlagged(outer: Outer, program: Key, caps: Option<BudgetCaps>, aliens: set<nat>, funded: set<nat>,
      spent: set<nat>)
    requires FlagsKind(outer.instructions, program, Alien, (i: nat) => true, aliens)
    requires FlagsKind(outer.instructions, program, AtaCreate, BadFunder(outer.feePayer, outer.instructions), funded)
    requires FlagsKind(outer.instructions, program, ComputeBudget, BadBudget(program, outer.instructions, caps), spent)
    ensures FlagsUnknown(outer, program, caps, aliens + funded + spent)
  {}

  // The positions reported as unknown outer programs.
  method FlagUnknown(b: ParsedBundle, caps: Option<BudgetCaps>, ghost outer: Outer, ghost program: Key)
      returns (flagged: set<nat>)
    requires ParsedAs(program, outer.instructions, b) && b.feePayer == outer.feePayer
    ensures FlagsUnknown(outer, program, caps, flagged)
  {
    ghost var ixs := outer.instructions;
    var aliens := set i | i in b.foreign;
    AllPicked(ixs, program, Alien, (i: nat) => true, aliens);
    var funded := FlagFunders(b.feePayer, b.ataCreates, ixs, program);
    var spent := FlagBudgets(b.computeBudget, caps, ixs, program);
    KindsFlagged(outer, program, caps, aliens, funded, spent);
    return aliens + funded + spent;
  }

  // Account creations whose rent someone other than the fee payer is to fund.
  method FlagFunders(feePayer: Option<Key>, ataCreates: seq<AtaCreateIx>, ghost ixs: seq<OuterInstruction>,
      ghost program: Key)
      returns (flagged: set<nat>)
    requires ataCreates == Collect(program, ixs, AtaCreate, AsAtaCreate)
    ensures FlagsKind(ixs, program, AtaCreate, BadFunder(feePayer, ixs), flagged)
  {
    ghost var at, bad := Positions(program, ixs, AtaCreate), BadFunder(feePayer, ixs);
    BucketsInOrder(program, ixs, AtaCreate, AsAtaCreate);
    flagged := {};
    for q := 0 to |ataCreates|
      invariant Picks(flagged, at[..q], bad)
    {
      var ata := ataCreates[q];
      assert ata == AsAtaCreate(at[q], ixs[at[q]]);
      PicksSnoc(flagged, at, q, bad);
      if feePayer.Some? && ata.funder.Some? && ata.funder != feePayer {
        flagged := flagged + {ata.index};
      }
    }
    assert at[..|at|] == at;
    AllPicked(ixs, program, AtaCreate, bad, flagged);
  }

  ghost predicate TagAmong(ixs: seq<OuterInstruction>, positions: seq<nat>, tag: int) {
    exists j :: j in positions && j < |ixs| && BudgetTag(ixs[j].data) == tag
  }

  ghost predicate TagsOf(ixs: seq<OuterInstruction>, positions: seq<nat>, tags: set<int>) {
    forall t :: t in tags <==> TagAmong(ixs, positions, t)
  }

  lemma TagsSnoc(ixs: seq<OuterInstruction>, at: seq<nat>, q: nat, tags: set<int>)
    requires q < |at| && at[q] < |ixs| && TagsOf(ixs, at[..q], tags)
    ensures TagsOf(ixs, at[..q + 1], tags + {BudgetTag(ixs[at[q]].data)})
  {
    assert at[..q + 1] == at[..q] + [at[q]];
    forall t ensures TagAmong(ixs, at[..q + 1], t) <==> TagAmong(ixs, at[..q], t) || t == BudgetTag(ixs[at[q]].data) {
      MoreTags(ixs, at[..q], at[q], t);
    }
  }

  // ComputeBudget instructions not opted into, repeated, or over their cap.
  method FlagBudgets(computeBudget: seq<ComputeBudgetIx>, caps: Option<BudgetCaps>,
      ghost ixs: seq<OuterInstruction>, ghost program: Key) returns (flagged: set<nat>)
    requires computeBudget == Collect(program, ixs, ComputeBudget, AsBudget)
    ensures FlagsKind(ixs, program, ComputeBudget, BadBudget(program, ixs, caps), flagged)
  {
    ghost var at, bad := Positions(program, ixs, ComputeBudget), BadBudget(program, ixs, caps);
    BucketsInOrder(program, ixs, ComputeBudget, AsBudget);
    flagged := {};
    var seenTags: set<int> := {};
    for q := 0 to |computeBudget|
      invariant TagsOf(ixs, at[..q], seenTags)
      invariant Picks(flagged, at[..q], bad)
    {
      var cb := computeBudget[q];
      assert cb == AsBudget(at[q], ixs[at[q]]);
      BudgetAllowedByTags(program, ixs, caps, q);
      TagsSnoc(ixs, at, q, seenTags);
      PicksSnoc(flagged, at, q, bad);
      var ok := BudgetOk(cb, caps, seenTags);
      seenTags := seenTags + {cb.tag};
      if !ok { flagged := flagged + {cb.index}; }
    }
    assert at[..|at|] == at;
    AllPicked(ixs, program, ComputeBudget, bad, flagged);
  }

  lemma MoreTags(ixs: seq<OuterInstruction>, positions: seq<nat>, j: nat, tag: int)
    requires j < |ixs|
    ensures TagAmong(ixs, positions + [j], tag) <==> TagAmong(ixs, positions, tag) || BudgetTag(ixs[j].data) == tag
  {
    if TagAmong(ixs, positions, tag) {
      var i :| i in positions && i < |ixs| && BudgetTag(ixs[i].data) == tag;
      assert i in positions + [j];
    }
    assert j in positions + [j];
  }

  lemma BudgetAllowedByTags(program: Key, ixs: seq<OuterInstruction>, caps: Option<BudgetCaps>, q: nat)
    requires q < |Positions(program, ixs, ComputeBudget)|
    ensures var at := Positions(program, ixs, ComputeBudget);
            && at[q] < |ixs|
            && var tag, value := BudgetTag(ixs[at[q]].data), BudgetValue(ixs[at[q]].data);
               BudgetAllowed(program, ixs, caps, at[q]) <==>
                 caps.Some? && value.Some? && WithinCaps(tag, value.value, caps.value) && !TagAmong(ixs, at[..q], tag)
  {
    BucketsInOrder(program, ixs, ComputeBudget, AsIndex);
    EarlierInBucket(program, ixs, ComputeBudget, q);
  }

  method BudgetOk(cb: ComputeBudgetIx, caps: Option<BudgetCaps>, seenTags: set<int>) returns (ok: bool)
    ensures ok
            <==> caps.Some? && cb.value.Some? && WithinCaps(cb.tag, cb.value.value, caps.value) && cb.tag !in seenTags
  {
    ok := false;
    if caps.Some? && cb.value.Some? && cb.tag !in seenTags {
      if cb.tag == COMPUTE_BUDGET_TAG_SET_UNIT_LIMIT {
        ok := caps.value.maxUnitLimit.None? || cb.value.value <= caps.value.maxUnitLimit.value;
      } else if cb.tag == COMPUTE_BUDGET_TAG_SET_UNIT_PRICE {
        var cap := caps.value.maxUnitPrice;
        ok := cap.NoCap? || (cap.amount.Number? && cb.value.value <= cap.amount.n);
      }
    }
  }

  // The first q entries of a bucket are the instructions of its kind before the q-th one's position.
  lemma EarlierInBucket(program: Key, ixs: seq<OuterInstruction>, kind: Kind, q: nat)
    requires q < |Positions(program, ixs, kind)|
    ensures var at := Positions(program, ixs, kind);
            forall j: nat :: j in at[..q] <==> j < at[q] && j < |ixs| && KindOf(program, ixs[j]) == kind
  {
    var at := Positions(program, ixs, kind);
    BucketsInOrder(program, ixs, kind, AsIndex);
    forall j: nat ensures j in at[..q] <==> j < at[q] && j < |ixs| && KindOf(program, ixs[j]) == kind {
      InOneBucket(program, ixs, kind, j);
      if j in at && j < at[q] {
        var p :| 0 <= p < |at| && at[p] == j;
        assert p < q;
        assert at[..q][p] == j;
      }
    }
  }
}
