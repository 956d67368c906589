/** The four probe positions of the PROBoter and their left-to-right order. */
module ProbeConfig {
  /** Declared from the left outermost probe to the right outermost one. */
  datatype ProbeType = P21 | P2 | P1 | P11

  const DeclaredProbeTypes: seq<ProbeType> := [P21, P2, P1, P11]

  /** Order index P11 -> P1 -> P2 -> P21; every type other than the first three falls through to 3. */
  function ToOrderIndex(p: ProbeType): (r: nat)
    ensures r <= 3
    ensures r == 3 <==> p !in {P11, P1, P2}
  {
    if p == P11 then 0
    else if p == P1 then 1
    else if p == P2 then 2
    else 3
  }

  lemma OrderIndexValues()
    ensures ToOrderIndex(P11) == 0 && ToOrderIndex(P1) == 1
    ensures ToOrderIndex(P2) == 2 && ToOrderIndex(P21) == 3
  {
  }

  /** Distinct probe types have distinct order indices. */
  lemma OrderIndexInjective(p: ProbeType, q: ProbeType)
    ensures ToOrderIndex(p) == ToOrderIndex(q) ==> p == q
  {
  }

  /** The order index runs against the declaration order, from right to left. */
  lemma OrderIndexReversesDeclaration(i: nat)
    requires i < |DeclaredProbeTypes|
    ensures ToOrderIndex(DeclaredProbeTypes[i]) == 3 - i
  {
  }
}
