/** What the gates do to one amplitude. */
module GateLaws {
  import opened Amplitudes

  function Signed(plus: bool, x: real): real {
    if plus then x else -x
  }

  lemma WithSelf(b: Basis, q: nat)
    ensures With(b, q, q in b) == b
  {
  }

  lemma XAt(q: nat, psi: State, b: Basis, e: Env, p: Part)
    ensures Apply(X, q, psi)(b, e, p) == psi(With(b, q, q !in b), e, p)
  {
  }

  lemma ZAt(q: nat, psi: State, b: Basis, e: Env, p: Part)
    ensures Apply(Z, q, psi)(b, e, p) == Signed(q !in b, psi(b, e, p))
  {
    WithSelf(b, q);
  }

  lemma HAt(q: nat, psi: State, b: Basis, e: Env, p: Part)
    ensures Apply(H, q, psi)(b, e, p)
         == psi(With(b, q, false), e, p) + Signed(q !in b, psi(With(b, q, true), e, p))
  {
  }

  lemma {:induction false} CnotAt(c: nat, t: nat, psi: State, b: Basis, e: Env, p: Part)
    ensures Cnot(c, t, psi)(b, e, p) == psi(With(b, t, (t in b) != (c in b)), e, p)
  {
    WithSelf(b, t);
  }

  lemma CphaseAt(c: nat, t: nat, psi: State, b: Basis, e: Env, p: Part)
    ensures Cphase(c, t, psi)(b, e, p) == Signed(!(c in b && t in b), psi(b, e, p))
  {
    WithSelf(b, t);
  }
}
