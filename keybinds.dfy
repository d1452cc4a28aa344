/**
 * Keybinding configuration and its expansion into one backend registration
 * per (view, key) entry, in the configuration's nested order.
 */
module Keybinds {
  import opened Backend
  import opened Mapper

  /** One {key, action} pair of the configuration. */
  datatype KeybindConf = KeybindConf(key: string, action: string)

  /** One configuration entry: a view and its ordered key/action pairs. */
  datatype ViewKeybinds = ViewKeybinds(viewName: string, keybinds: seq<KeybindConf>)

  /** The registration for one pair: the key goes through KeyStrToCode, the callback dispatches the action. */
  function BindingOf(viewName: string, kb: KeybindConf): Binding
  {
    Binding(viewName, KeyStrToCode(kb.key), kb.action)
  }

  /** The registrations of one view's pairs, in order. */
  function ViewBindings(c: ViewKeybinds): seq<Binding>
  {
    seq(|c.keybinds|, j requires 0 <= j < |c.keybinds| => BindingOf(c.viewName, c.keybinds[j]))
  }

  /** The registrations of all entries, view by view, pair by pair: exactly one per (view, key) pair. */
  function Expand(cs: seq<ViewKeybinds>): (r: seq<Binding>)
    ensures |r| == PairCount(cs)
    decreases |cs|
  {
    if cs == [] then [] else Expand(cs[..|cs| - 1]) + ViewBindings(cs[|cs| - 1])
  }

  /** The number of (view, key) pairs in the configuration. */
  function PairCount(cs: seq<ViewKeybinds>): nat
    decreases |cs|
  {
    if cs == [] then 0 else PairCount(cs[..|cs| - 1]) + |cs[|cs| - 1].keybinds|
  }

  /** The registrations a backend keeps when the ones it refuses are dropped. */
  function Kept(bs: seq<Binding>, refuses: Binding -> bool): (r: seq<Binding>)
    ensures |r| <= |bs|
    decreases |bs|
  {
    if bs == [] then []
    else Kept(bs[..|bs| - 1], refuses) + (if refuses(bs[|bs| - 1]) then [] else [bs[|bs| - 1]])
  }

  /** The position of the first refused registration, or |bs| when none is refused. */
  function FirstRefused(bs: seq<Binding>, refuses: Binding -> bool): (k: nat)
    ensures k <= |bs|
    ensures forall m :: 0 <= m < k ==> !refuses(bs[m])
    ensures k < |bs| ==> refuses(bs[k])
    decreases |bs|
  {
    if bs == [] || refuses(bs[0]) then 0
    else
      assert forall m :: 1 <= m < |bs| ==> bs[m] == bs[1..][m - 1];
      1 + FirstRefused(bs[1..], refuses)
  }

  /** Expansion distributes over concatenation of configurations. */
  lemma {:induction false} ExpandAppend(a: seq<ViewKeybinds>, b: seq<ViewKeybinds>)
    ensures Expand(a + b) == Expand(a) + Expand(b)
    decreases |b|
  {
    if b == [] {
      assert a + b == a;
    } else {
      var b', last := b[..|b| - 1], b[|b| - 1];
      assert (a + b)[..|a + b| - 1] == a + b';
      assert (a + b)[|a + b| - 1] == last;
      assert Expand(a + b) == Expand(a + b') + ViewBindings(last);
      ExpandAppend(a, b');
      AppendAssociates(Expand(a), Expand(b'), ViewBindings(last));
    }
  }

  /**
   * Pair j of entry i is registration PairCount(cs[..i]) + j: its view, its
   * key through KeyStrToCode and its action.
   */
  lemma ExpandAt(cs: seq<ViewKeybinds>, i: nat, j: nat)
    requires i < |cs| && j < |cs[i].keybinds|
    ensures PairCount(cs[..i]) + j < |Expand(cs)|
    ensures Expand(cs)[PairCount(cs[..i]) + j] ==
              Binding(cs[i].viewName, KeyStrToCode(cs[i].keybinds[j].key), cs[i].keybinds[j].action)
  {
    ExpandThroughEntry(cs, i);
    var p := |Expand(cs[..i])| + j;
    assert Expand(cs)[p] == Expand(cs[..i + 1])[p] == ViewBindings(cs[i])[j];
  }

  /** What has been registered after j pairs of entry i is a prefix of the full expansion. */
  lemma ExpandPrefix(cs: seq<ViewKeybinds>, i: nat, j: nat)
    requires i < |cs| && j <= |cs[i].keybinds|
    ensures Expand(cs[..i]) + ViewBindings(cs[i])[..j] <= Expand(cs)
  {
    ExpandThroughEntry(cs, i);
    assert Expand(cs[..i]) + ViewBindings(cs[i])[..j] <= Expand(cs[..i + 1]);
  }

  /** A backend that refuses nothing keeps every registration. */
  lemma {:induction false} KeptAll(bs: seq<Binding>, refuses: Binding -> bool)
    requires forall m :: 0 <= m < |bs| ==> !refuses(bs[m])
    ensures Kept(bs, refuses) == bs
    decreases |bs|
  {
    if bs != [] {
      KeptAll(bs[..|bs| - 1], refuses);
    }
  }

  /** The backend keeps none of the registrations that it refuses. */
  lemma {:induction false} KeptRefusesNone(bs: seq<Binding>, refuses: Binding -> bool)
    ensures forall m :: 0 <= m < |Kept(bs, refuses)| ==> !refuses(Kept(bs, refuses)[m])
    decreases |bs|
  {
    if bs != [] {
      KeptRefusesNone(bs[..|bs| - 1], refuses);
    }
  }

  /** A refusal-free prefix followed by a refused registration locates the first refusal. */
  lemma FirstRefusedAt(bs: seq<Binding>, done: seq<Binding>, refuses: Binding -> bool)
    requires done <= bs
    requires forall m :: 0 <= m < |done| ==> !refuses(done[m])
    requires |done| == |bs| || refuses(bs[|done|])
    ensures FirstRefused(bs, refuses) == |done|
  {
  }

  /** Dropping refused registrations distributes over concatenation. */
  lemma {:induction false} KeptAppend(a: seq<Binding>, b: seq<Binding>, refuses: Binding -> bool)
    ensures Kept(a + b, refuses) == Kept(a, refuses) + Kept(b, refuses)
    decreases |b|
  {
    if b == [] {
      assert a + b == a;
    } else {
      var b' := b[..|b| - 1];
      assert (a + b)[..|a + b| - 1] == a + b';
      KeptAppend(a, b', refuses);
    }
  }

  /** The registrations the backend keeps from the first n entries. */
  function KeptFirst(cs: seq<ViewKeybinds>, n: nat, refuses: Binding -> bool): (r: seq<Binding>)
    requires n <= |cs|
    ensures r == Kept(Expand(cs[..n]), refuses)
  {
    if n == 0 then []
    else
      assert cs[..n][..n - 1] == cs[..n - 1];
      KeptAppend(Expand(cs[..n - 1]), ViewBindings(cs[n - 1]), refuses);
      KeptFirst(cs, n - 1, refuses) + Kept(ViewBindings(cs[n - 1]), refuses)
  }

  // Proof helpers for the registration loops of Sangocui and Songocui and the
  // lemmas above; they split sequence reasoning into small steps and have no
  // counterpart in the source.

  /** The expansion of the first i + 1 entries is a prefix of the whole expansion. */
  lemma {:induction false} ExpandThroughEntry(cs: seq<ViewKeybinds>, i: nat)
    requires i < |cs|
    ensures Expand(cs[..i + 1]) == Expand(cs[..i]) + ViewBindings(cs[i])
    ensures Expand(cs[..i + 1]) <= Expand(cs)
  {
    assert cs[..i + 1][..i] == cs[..i];
    ExpandPrefixOf(cs, i + 1);
  }

  /** The expansion of the first n entries is a prefix of the whole expansion. */
  lemma {:induction false} ExpandPrefixOf(cs: seq<ViewKeybinds>, n: nat)
    requires n <= |cs|
    ensures Expand(cs[..n]) <= Expand(cs)
  {
    assert cs[..n] + cs[n..] == cs;
    ExpandAppend(cs[..n], cs[n..]);
    PrefixOfAppend(Expand(cs[..n]), Expand(cs[n..]));
  }

  /** A list is a prefix of any extension of it. */
  lemma PrefixOfAppend(a: seq<Binding>, b: seq<Binding>)
    ensures a <= a + b
  {
    assert (a + b)[..|a|] == a;
  }

  /** Concatenation of registration lists associates. */
  lemma AppendAssociates(a: seq<Binding>, b: seq<Binding>, c: seq<Binding>)
    ensures a + (b + c) == a + b + c
  {
  }

  /** Trying pair j of entry i after the earlier pairs: kept unless the backend refuses it. */
  lemma KeptPairStep(prior: seq<Binding>, c: ViewKeybinds, j: nat, refuses: Binding -> bool)
    requires j < |c.keybinds|
    ensures refuses(BindingOf(c.viewName, c.keybinds[j])) ==>
              prior + Kept(ViewBindings(c)[..j + 1], refuses) == prior + Kept(ViewBindings(c)[..j], refuses)
    ensures !refuses(BindingOf(c.viewName, c.keybinds[j])) ==>
              prior + Kept(ViewBindings(c)[..j + 1], refuses) ==
              prior + Kept(ViewBindings(c)[..j], refuses) + [BindingOf(c.viewName, c.keybinds[j])]
  {
    assert ViewBindings(c)[..j + 1][..j] == ViewBindings(c)[..j];
    AppendAssociates(prior, Kept(ViewBindings(c)[..j], refuses), [BindingOf(c.viewName, c.keybinds[j])]);
  }

  /** After all pairs of entry i, the kept registrations are those of the first i + 1 entries. */
  lemma KeptEntryStep(prior: seq<Binding>, cs: seq<ViewKeybinds>, i: nat, refuses: Binding -> bool)
    requires i < |cs|
    ensures prior + KeptFirst(cs, i, refuses) + Kept(ViewBindings(cs[i])[..|cs[i].keybinds|], refuses) ==
            prior + KeptFirst(cs, i + 1, refuses)
  {
    assert ViewBindings(cs[i])[..|cs[i].keybinds|] == ViewBindings(cs[i]);
    AppendAssociates(prior, KeptFirst(cs, i, refuses), Kept(ViewBindings(cs[i]), refuses));
  }

  /** The kept registrations of all entries. */
  lemma KeptAllEntries(cs: seq<ViewKeybinds>, refuses: Binding -> bool)
    ensures KeptFirst(cs, |cs|, refuses) == Kept(Expand(cs), refuses)
  {
    assert cs[..|cs|] == cs;
  }

  /** Registering pair j of entry i extends the registrations so far by that pair. */
  lemma RegisteredStep(cs: seq<ViewKeybinds>, i: nat, j: nat)
    requires i < |cs| && j < |cs[i].keybinds|
    ensures Expand(cs[..i]) + ViewBindings(cs[i])[..j + 1] ==
            Expand(cs[..i]) + ViewBindings(cs[i])[..j] + [BindingOf(cs[i].viewName, cs[i].keybinds[j])]
  {
    assert ViewBindings(cs[i])[..j + 1] == ViewBindings(cs[i])[..j] + [ViewBindings(cs[i])[j]];
  }

  /** After all pairs of entry i, the registrations so far are those of the first i + 1 entries. */
  lemma RegisteredEntry(cs: seq<ViewKeybinds>, i: nat)
    requires i < |cs|
    ensures Expand(cs[..i]) + ViewBindings(cs[i])[..0] == Expand(cs[..i])
    ensures Expand(cs[..i]) + ViewBindings(cs[i])[..|cs[i].keybinds|] == Expand(cs[..i + 1])
  {
    assert cs[..i + 1][..i] == cs[..i];
    assert ViewBindings(cs[i])[..|cs[i].keybinds|] == ViewBindings(cs[i]);
  }

  /**
   * When every registration before pair j of entry i was accepted and that pair
   * is refused, it is the first refusal of the whole expansion.
   */
  lemma FirstRefusedInEntry(cs: seq<ViewKeybinds>, i: nat, j: nat, refuses: Binding -> bool)
    requires i < |cs| && j < |cs[i].keybinds|
    requires forall m :: 0 <= m < |Expand(cs[..i]) + ViewBindings(cs[i])[..j]| ==>
               !refuses((Expand(cs[..i]) + ViewBindings(cs[i])[..j])[m])
    requires refuses(BindingOf(cs[i].viewName, cs[i].keybinds[j]))
    ensures FirstRefused(Expand(cs), refuses) == |Expand(cs[..i]) + ViewBindings(cs[i])[..j]| < |Expand(cs)|
    ensures Expand(cs)[..FirstRefused(Expand(cs), refuses)] == Expand(cs[..i]) + ViewBindings(cs[i])[..j]
  {
    var done := Expand(cs[..i]) + ViewBindings(cs[i])[..j];
    ExpandPrefix(cs, i, j);
    ExpandAt(cs, i, j);
    FirstRefusedAt(Expand(cs), done, refuses);
  }
}
