/** Conversion between a local clock and a faster (or equal) global one. */
module Clocks {
  import opened Arithmetic

  /** The global cycle in which local cycle `c` begins. */
  function ToGlobal(global: nat, local: nat, c: nat): (r: nat)
    requires 0 < local
  {
    c * global / local
  }

  /** The local cycle that is running in global cycle `g`. */
  function ToLocal(global: nat, local: nat, g: nat): (r: nat)
    requires 0 < global
  {
    g * local / global
  }

  lemma ToGlobalMonotone(global: nat, local: nat, c: nat, d: nat)
    requires 0 < local && c <= d
    ensures ToGlobal(global, local, c) <= ToGlobal(global, local, d)
  {
    var t := ToGlobal(global, local, d);
    assert c * global <= d * global;
    Floor(c * global, local, t);
    Floor(d * global, local, t);
  }

  lemma GlobalIsFaster(global: nat, local: nat, c: nat)
    requires 0 < local <= global
    ensures c <= ToGlobal(global, local, c)
  {
    assert c * local <= c * global;
    Floor(c * global, local, c);
  }

  lemma LocalIsSlower(global: nat, local: nat, g: nat)
    requires local <= global && 0 < global
    ensures ToLocal(global, local, g) <= g
  {
    assert g * local <= g * global < (g + 1) * global;
    Floor(g * local, global, g);
  }

  /** A local cycle has been reached by global cycle `g` only if it begins no later than `g`. */
  lemma Reached(global: nat, local: nat, c: nat, g: nat)
    requires 0 < local <= global
    ensures c <= ToLocal(global, local, g) ==> ToGlobal(global, local, c) <= g
    ensures ToLocal(global, local, ToGlobal(global, local, c)) <= c
  {
    Floor(g * local, global, c);
    Floor(c * global, local, g);
    if c * global <= g * local {
      assert g * local < (g + 1) * local;
    }
    var t := ToGlobal(global, local, c);
    Floor(c * global, local, t);
    assert t * local <= c * global < (c + 1) * global;
    Floor(t * local, global, c);
  }
}
