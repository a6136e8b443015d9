/**
 * A player's appearance: it watches the replicated skin index, applies a skin to its renderers
 * when the rounded index changes, and ignores indices outside the skin registry.
 */
module Appearance {

  import opened Wrappers
  import opened Schema

  /** One entry of `targetRenderers`: a null entry, or a renderer with its material's texture. */
  datatype RendererSlot = Missing | Renderer(texture: Option<Texture>)

  /** The renderers after every non-null one has been given texture `tex`. */
  function Skinned(slots: seq<RendererSlot>, tex: Texture): (r: seq<RendererSlot>)
    ensures |r| == |slots|
    ensures forall i :: 0 <= i < |slots| ==>
              if slots[i].Missing? then r[i] == Missing else r[i] == Renderer(Some(tex))
  {
    if slots == [] then []
    else [if slots[0].Missing? then Missing else Renderer(Some(tex))] + Skinned(slots[1..], tex)
  }

  /** Applying skins one after another leaves the last one applied; applying one twice is applying it once. */
  lemma {:induction false} LastSkinWins(slots: seq<RendererSlot>, t1: Texture, t2: Texture)
    ensures Skinned(Skinned(slots, t1), t2) == Skinned(slots, t2)
  {
    if slots != [] {
      LastSkinWins(slots[1..], t1, t2);
      assert Skinned(slots, t1)[1..] == Skinned(slots[1..], t1);
    }
  }

  /** `SetSkin`'s guard: a registry is assigned and the index is one of its entries. */
  predicate InRange(registry: Option<SkinRegistry>, index: int) {
    registry.Some? && 0 <= index < |registry.value|
  }

  /** The renderers after `SetSkin(index)`. */
  function Applied(registry: Option<SkinRegistry>, slots: seq<RendererSlot>, index: int): seq<RendererSlot> {
    if InRange(registry, index) then Skinned(slots, registry.value[index]) else slots
  }

  /**
   * Applying the same index again changes nothing; so on a whole-number skin value the first
   * `Update` after `Initialize` changes nothing visible (see `InitializeThenUpdate`).
   */
  lemma AppliedIdempotent(registry: Option<SkinRegistry>, slots: seq<RendererSlot>, index: int)
    ensures Applied(registry, Applied(registry, slots, index), index) == Applied(registry, slots, index)
  {
    if InRange(registry, index) {
      LastSkinWins(slots, registry.value[index], registry.value[index]);
    }
  }

  /** `Mathf.RoundToInt`: to the nearest integer, halves to the even neighbour. */
  function RoundToInt(v: real): (n: int)
    ensures n as real - 0.5 <= v <= n as real + 0.5
    ensures v == v.Floor as real ==> n == v.Floor
    ensures v - v.Floor as real == 0.5 ==> n % 2 == 0
  {
    var f := v.Floor;
    var frac := v - f as real;
    if frac < 0.5 then f
    else if frac > 0.5 then f + 1
    else if f % 2 == 0 then f
    else f + 1
  }

  /** C#'s `(int)` conversion of a float: toward zero. */
  function TruncateToInt(v: real): (n: int)
    ensures v >= 0.0 ==> 0 <= n && n as real <= v < n as real + 1.0
    ensures v < 0.0 ==> n <= 0 && n as real - 1.0 < v <= n as real
    ensures v == v.Floor as real ==> n == v.Floor
  {
    if v >= 0.0 then v.Floor else -((-v).Floor)
  }

  /**
   * On a whole-number skin value the cast and the rounding agree. The lobby only ever sends
   * an `int` with `setSkin`, although the server stores whatever payload arrives.
   */
  lemma IntegralConversionsAgree(v: real)
    requires v == v.Floor as real
    ensures TruncateToInt(v) == RoundToInt(v) == v.Floor
  {
  }

  /** On some fractional values they differ: the cast takes 1.5 and 1.7 to 1, the rounding to 2. */
  lemma FractionalConversionsDiffer()
    ensures TruncateToInt(1.5) == 1 && RoundToInt(1.5) == 2
    ensures TruncateToInt(1.7) == 1 && RoundToInt(1.7) == 2
  {
    assert (1.5).Floor == 1;
    assert (1.7).Floor == 1;
  }

  class PlayerAppearance {
    const registry: Option<SkinRegistry>
    const renderers: array?<RendererSlot>
    /** `_playerSchema != null`. */
    var attached: bool
    var lastSkinIndex: int

    constructor (skins: Option<SkinRegistry>, targets: array?<RendererSlot>)
      ensures registry == skins && renderers == targets
      ensures !attached && lastSkinIndex == -1
    {
      registry := skins;
      renderers := targets;
      attached := false;
      lastSkinIndex := -1;
    }

    /** Attach the schema and apply its skin (cast toward zero); `_lastSkinIndex` is left alone. */
    method Initialize(skinValue: real)
      modifies this`attached, renderers
      ensures attached && lastSkinIndex == old(lastSkinIndex)
      ensures renderers != null ==> renderers[..] == Applied(registry, old(renderers[..]), TruncateToInt(skinValue))
    {
      attached := true;
      SetSkin(TruncateToInt(skinValue));
    }

    /**
     * One frame, `skinValue` being the schema's current skin index: apply and record the
     * rounded index when it differs from the last one recorded, even if it is out of range.
     */
    method Update(skinValue: real)
      modifies this`lastSkinIndex, renderers
      ensures !attached ==> lastSkinIndex == old(lastSkinIndex) && (renderers != null ==> renderers[..] == old(renderers[..]))
      ensures attached ==>
        var i := RoundToInt(skinValue);
        && lastSkinIndex == i
        && (renderers != null ==>
              renderers[..] == if i != old(lastSkinIndex) then Applied(registry, old(renderers[..]), i) else old(renderers[..]))
    {
      if attached {
        var current := RoundToInt(skinValue);
        if current != lastSkinIndex {
          SetSkin(current);
          lastSkinIndex := current;
        }
      }
    }

    /** Give every non-null renderer the skin's texture, when the index is in range. */
    method SetSkin(index: int)
      modifies renderers
      ensures renderers != null ==> renderers[..] == Applied(registry, old(renderers[..]), index)
    {
      if registry.None? || index < 0 || index >= |registry.value| {
        return;
      }
      if renderers != null {
        var tex := registry.value[index];
        var i := 0;
        while i < renderers.Length
          invariant 0 <= i <= renderers.Length
          invariant forall k :: 0 <= k < i ==>
                      if old(renderers[k]).Missing? then renderers[k] == Missing else renderers[k] == Renderer(Some(tex))
          invariant forall k :: i <= k < renderers.Length ==> renderers[k] == old(renderers[k])
        {
          if renderers[i] != Missing {
            renderers[i] := Renderer(Some(tex));
          }
          i := i + 1;
        }
        assert renderers[..] == Skinned(old(renderers[..]), tex);
      }
    }

    method OnDestroy()
      modifies this`attached
      ensures !attached
    {
      attached := false;
    }
  }

  /** An `Update` that sees the same index as the one before it changes nothing. */
  method UpdateTwice(a: PlayerAppearance, skinValue: real)
    requires a.attached
    modifies a, a.renderers
    ensures a.lastSkinIndex == RoundToInt(skinValue)
    ensures a.renderers != null ==>
      a.renderers[..] == if RoundToInt(skinValue) != old(a.lastSkinIndex)
                         then Applied(a.registry, old(a.renderers[..]), RoundToInt(skinValue))
                         else old(a.renderers[..])
  {
    a.Update(skinValue);
    ghost var afterFirst := if a.renderers != null then a.renderers[..] else [];
    a.Update(skinValue);
    assert a.renderers != null ==> a.renderers[..] == afterFirst;
  }

  /**
   * `Initialize` followed by the first `Update` with the same whole-number skin value: the
   * renderers end with that skin applied once, whatever `_lastSkinIndex` was.
   */
  method InitializeThenUpdate(a: PlayerAppearance, v: real)
    requires v == v.Floor as real
    modifies a, a.renderers
    ensures a.attached && a.lastSkinIndex == v.Floor
    ensures a.renderers != null ==> a.renderers[..] == Applied(a.registry, old(a.renderers[..]), v.Floor)
  {
    IntegralConversionsAgree(v);
    ghost var before := if a.renderers != null then a.renderers[..] else [];
    a.Initialize(v);
    a.Update(v);
    AppliedIdempotent(a.registry, before, v.Floor);
  }
}
