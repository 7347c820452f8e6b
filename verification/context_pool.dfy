/** The context pool: the tokens a host is given, what they resolve to, and how a slot is
    acquired. */
module ContextPool {
  import opened Wrappers

  const MaxFFIContexts: nat := 32
  const TokenBase: nat := 4096

  // ---------------------------------------------------------------------------------------
  // Tokens
  // ---------------------------------------------------------------------------------------

  // `word` is the number of values of a machine word; shift and additions wrap at it.
  function MakeToken(word: nat, slot: nat, generation: nat): nat
    requires word > 0
  {
    (TokenBase + (generation * 32) % word + slot % 32) % word
  }

  // Slot 0 of generation 0 stands for a token the pool never issued.
  function TokenSlotAndGeneration(token: nat): (nat, nat) {
    if token < TokenBase then (0, 0) else ((token - TokenBase) % 32, (token - TokenBase) / 32)
  }

  predicate Fits(word: nat, slot: nat, generation: nat) {
    TokenBase + generation * 32 + slot < word
  }

  lemma SmallMod(x: nat, word: nat)
    requires x < word
    ensures x % word == x
  {
  }

  lemma MakeTokenPacks(word: nat, slot: nat, generation: nat)
    requires word > 0 && slot < MaxFFIContexts
    ensures MakeToken(word, slot, generation) < word
    ensures Fits(word, slot, generation) ==> MakeToken(word, slot, generation) == TokenBase + generation * 32 + slot
  {
    if Fits(word, slot, generation) {
      SmallMod(generation * 32, word);
      SmallMod(TokenBase + generation * 32 + slot, word);
    }
  }

  lemma UnpackedIff(token: nat, slot: nat, generation: nat)
    requires slot < MaxFFIContexts && token >= TokenBase
    ensures TokenSlotAndGeneration(token) == (slot, generation) <==> token == TokenBase + generation * 32 + slot
  {
  }

  /** Packing is undone exactly while the packed value fits the word. */
  lemma TokenInverseIff(word: nat, slot: nat, generation: nat)
    requires word > 2 * TokenBase && slot < MaxFFIContexts
    ensures var token := MakeToken(word, slot, generation);
            TokenSlotAndGeneration(token) == (slot, generation) <==> Fits(word, slot, generation)
  {
    var token := MakeToken(word, slot, generation);
    MakeTokenPacks(word, slot, generation);
    hide MakeToken;
    if token >= TokenBase { UnpackedIff(token, slot, generation); }
  }

  /** Two claims never share a token. */
  lemma TokensDiffer(word: nat, slot: nat, generation: nat, slot': nat, generation': nat)
    requires word > 2 * TokenBase && slot < MaxFFIContexts && slot' < MaxFFIContexts
    requires Fits(word, slot, generation) && Fits(word, slot', generation')
    requires MakeToken(word, slot, generation) == MakeToken(word, slot', generation')
    ensures slot == slot' && generation == generation'
  {
    TokenInverseIff(word, slot, generation);
    TokenInverseIff(word, slot', generation');
  }

  // ---------------------------------------------------------------------------------------
  // Resolving
  // ---------------------------------------------------------------------------------------

  // The slot a token names while the slot is in the generation the token was issued under.
  function Resolved(generations: seq<nat>, token: nat): Option<nat>
    requires |generations| == MaxFFIContexts
  {
    var (slot, generation) := TokenSlotAndGeneration(token);
    if generation == 0 || generations[slot] != generation then None else Some(slot)
  }

  /** A nil token, or a value this pool never issues, names no slot at any time. */
  lemma SmallValuesNameNothing(generations: seq<nat>, token: nat)
    requires |generations| == MaxFFIContexts && token < 4096
    ensures Resolved(generations, token) == None
    ensures forall word: nat, slot: nat, generation: nat :: word > 0 && slot < 32 && Fits(word, slot, generation) ==>
          MakeToken(word, slot, generation) != token
  {
    forall word: nat, slot: nat, generation: nat | word > 0 && slot < 32 && Fits(word, slot, generation)
      ensures MakeToken(word, slot, generation) != token
    {
      MakeTokenPacks(word, slot, generation);
    }
  }

  // Slots are claimed and released; a generation only ever moves on by one.
  ghost predicate IsHistory(gs: seq<seq<nat>>) {
    && (forall k :: 0 <= k < |gs| ==> |gs[k]| == MaxFFIContexts)
    && (forall k :: 0 <= k < |gs| - 1 ==> exists i :: 0 <= i < MaxFFIContexts && gs[k + 1] == gs[k][i := gs[k][i] + 1])
  }

  lemma {:induction false} GenerationsGrow(gs: seq<seq<nat>>, j: nat, k: nat, i: nat)
    requires IsHistory(gs) && j <= k < |gs| && i < MaxFFIContexts
    ensures gs[j][i] <= gs[k][i]
  {
    if j < k { GenerationsGrow(gs, j, k - 1, i); }
  }

  /** The token of a claim resolves to its slot exactly while that claim lasts: at no time
      before the claim, at no time after it, and never to another slot. */
  lemma TokenResolvesItsClaim(word: nat, gs: seq<seq<nat>>, slot: nat, generation: nat, k: nat)
    requires word > 2 * TokenBase && slot < MaxFFIContexts && generation % 2 == 1 && Fits(word, slot, generation)
    requires IsHistory(gs) && k < |gs|
    ensures Resolved(gs[k], MakeToken(word, slot, generation)) == if gs[k][slot] == generation then Some(slot) else None
    ensures forall j, m :: 0 <= j < k <= m < |gs| && gs[j][slot] == generation && gs[k][slot] != generation ==>
              Resolved(gs[m], MakeToken(word, slot, generation)) == None
  {
    TokenInverseIff(word, slot, generation);
    forall j, m | 0 <= j < k <= m < |gs| && gs[j][slot] == generation && gs[k][slot] != generation
      ensures gs[m][slot] != generation
    {
      GenerationsGrow(gs, j, k, slot);
      GenerationsGrow(gs, k, m, slot);
    }
  }

  // ---------------------------------------------------------------------------------------
  // The pool
  // ---------------------------------------------------------------------------------------

  datatype Created = Created(slot: nat, token: nat) | StartFailed(slot: nat) | PoolFull

  // What a `tryClaim` saw of a slot: at its load, and at its exchange.
  datatype Look = Look(loaded: nat, found: nat)

  class FFIContextPool {
    const word: nat
    const generation: array<nat>
    const initialized: array<bool>
    const threadsUp: array<bool>

    ghost predicate Valid()
      reads this
    {
      && word > 2 * TokenBase
      && generation.Length == initialized.Length == threadsUp.Length == MaxFFIContexts
      && initialized != threadsUp
    }

    constructor (word: nat)
      requires word > 2 * TokenBase
      ensures Valid() && this.word == word && fresh(generation) && fresh(initialized) && fresh(threadsUp)
      ensures forall i :: 0 <= i < MaxFFIContexts ==> generation[i] == 0 && !initialized[i] && !threadsUp[i]
    {
      this.word := word;
      generation := new nat[MaxFFIContexts](_ => 0);
      initialized := new bool[MaxFFIContexts](_ => false);
      threadsUp := new bool[MaxFFIContexts](_ => false);
    }

    // The owners of the other slots claim and release them meanwhile; `mine` is left alone by them.
    method Others(mine: Option<nat>)
      requires Valid()
      modifies generation, initialized, threadsUp
      ensures forall i :: 0 <= i < MaxFFIContexts ==> old(generation[i]) <= generation[i]
      ensures mine.Some? && mine.value < MaxFFIContexts ==>
                && generation[mine.value] == old(generation[mine.value])
                && initialized[mine.value] == old(initialized[mine.value])
                && threadsUp[mine.value] == old(threadsUp[mine.value])
    {
      var steps: nat := *;
      while steps > 0
        invariant forall i :: 0 <= i < MaxFFIContexts ==> old(generation[i]) <= generation[i]
        invariant mine.Some? && mine.value < MaxFFIContexts ==>
                    && generation[mine.value] == old(generation[mine.value])
                    && initialized[mine.value] == old(initialized[mine.value])
                    && threadsUp[mine.value] == old(threadsUp[mine.value])
      {
        var i: nat, built: bool, up: bool := *, *, *;
        if i < MaxFFIContexts && mine != Some(i) {
          generation[i] := generation[i] + 1;
          initialized[i], threadsUp[i] := built, up;
        }
        steps := steps - 1;
      }
    }

    /** Even means free; the claim and its generation are one. `look` is what the load saw, and what
        the exchange found. */
    method TryClaim(i: nat) returns (ok: bool, ghost look: Look)
      requires Valid() && i < MaxFFIContexts
      modifies generation, initialized, threadsUp
      ensures forall j :: 0 <= j < MaxFFIContexts ==> old(generation[j]) <= generation[j]
      ensures old(generation[i]) <= look.loaded <= look.found <= generation[i]
      ensures ok <==> look.loaded % 2 == 0 && look.found == look.loaded
      ensures generation[i] == if ok then look.found + 1 else look.found
    {
      Others(None);
      var loaded := generation[i];
      if loaded % 2 == 1 { return false, Look(loaded, loaded); }
      Others(None);
      look := Look(loaded, generation[i]);
      ok := generation[i] == loaded;
      if ok { generation[i] := loaded + 1; }
    }

    method ReleaseClaim(i: nat)
      requires Valid() && i < MaxFFIContexts
      modifies generation
      ensures generation[..] == old(generation[..])[i := old(generation[i]) + 1]
    {
      generation[i] := generation[i] + 1;
    }

    // Builds the slot on first use, starts its threads again if they were parked; `starts` says
    // whether a thread that has to be started does start.
    method Start(i: nat, starts: bool) returns (ok: bool)
      requires Valid() && i < MaxFFIContexts && generation[i] % 2 == 1
      modifies generation, initialized, threadsUp
      ensures forall j :: 0 <= j < MaxFFIContexts ==> old(generation[j]) <= generation[j]
      ensures generation[i] == old(generation[i]) + if ok then 0 else 1
      ensures ok ==> initialized[i] && threadsUp[i]
      ensures ok <==> starts || old(initialized[i] && threadsUp[i])
    {
      Others(Some(i));
      ok := true;
      if !(initialized[i] && threadsUp[i]) {
        ok := starts;
        if !ok {
          ReleaseClaim(i);
          return;
        }
        initialized[i] := true;
        threadsUp[i] := true;
      }
    }

    /** Takes the first slot that is free when its turn comes, under a generation no earlier owner
        had, and starts its threads if they are down; a failed start gives the slot back. With other
        creators and owners at work all the while, the pool is reported full, and a slot passed over,
        only if each was claimed when looked at or was taken between the look and the exchange. */
    method CreateFFIContext(starts: bool) returns (r: Created, ghost looks: seq<Look>)
      requires Valid()
      modifies generation, initialized, threadsUp
      ensures forall i :: 0 <= i < |looks| <= MaxFFIContexts ==>
                (looks[i].loaded % 2 == 1 || looks[i].found != looks[i].loaded)
                && old(generation[i]) <= looks[i].loaded <= looks[i].found <= generation[i]
      ensures |looks| == if r.PoolFull? then MaxFFIContexts else r.slot
      ensures !r.PoolFull? ==> r.slot < MaxFFIContexts && old(generation[r.slot]) < generation[r.slot]
      ensures r.Created? ==>
                && generation[r.slot] % 2 == 1 && r.token == MakeToken(word, r.slot, generation[r.slot])
                && initialized[r.slot] && threadsUp[r.slot]
      ensures r.StartFailed? ==> !starts && generation[r.slot] % 2 == 0
    {
      looks := [];
      for i := 0 to MaxFFIContexts
        invariant |looks| == i && forall j :: 0 <= j < MaxFFIContexts ==> old(generation[j]) <= generation[j]
        invariant forall j :: 0 <= j < i ==>
                    (looks[j].loaded % 2 == 1 || looks[j].found != looks[j].loaded)
                    && old(generation[j]) <= looks[j].loaded <= looks[j].found <= generation[j]
      {
        var claimed, look := TryClaim(i);
        if claimed {
          var token := MakeToken(word, i, generation[i]);
          var started := Start(i, starts);
          return if started then Created.Created(i, token) else StartFailed(i), looks;
        }
        looks := looks + [look];
      }
      r := PoolFull;
    }

    method ResolveCtx(token: nat) returns (slot: Option<nat>)
      requires Valid()
      ensures slot == Resolved(generation[..], token)
    {
      var (s, g) := TokenSlotAndGeneration(token);
      if g == 0 { return None; }
      if generation[s] != g { return None; }
      slot := Some(s);
    }
  }
}
