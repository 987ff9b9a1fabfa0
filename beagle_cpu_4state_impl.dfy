/**
 * The 4-state CPU implementation: the three partial-likelihood kernels and
 * the root integration as methods that walk flat buffers with running
 * indices, and the factory that selects this implementation.
 */
module BeagleCPU4State {
  import opened Layout
  import opened KernelSpec
  import opened RootSpec

  class BeagleCPU4StateImpl {
    /** Number of rate categories of the instance. */
    var kCategoryCount: nat
    /** Number of site patterns of the instance. */
    var kPatternCount: nat
    /** Entries per category in a transition-matrix buffer. */
    const kMatrixSize: int := MatrixSize
    /** Scratch buffer of the root integration, four cells per pattern. */
    var integrationTmp: array<real>
    /** The instance's partials buffers, by buffer index. */
    var partials: seq<array<real>>

    /** A freshly allocated instance, before `createInstance` has set its sizes. */
    constructor ()
      ensures kCategoryCount == 0 && kPatternCount == 0
      ensures integrationTmp.Length == 0 && partials == []
    {
      kCategoryCount := 0;
      kPatternCount := 0;
      integrationTmp := new real[0];
      partials := [];
    }

    /** Partial likelihoods at a node whose two children are tips with observed states. */
    method CalcStatesStates(destP: array<real>,
                            child1States: seq<int>, child1TransMat: seq<real>,
                            child2States: seq<int>, child2TransMat: seq<real>)
      requires StatesOk(child1States, kPatternCount) && StatesOk(child2States, kPatternCount)
      requires MatricesOk(child1TransMat, kCategoryCount) && MatricesOk(child2TransMat, kCategoryCount)
      requires destP.Length >= kCategoryCount * kPatternCount * StateCount
      modifies destP
      ensures destP[..kCategoryCount * kPatternCount * StateCount]
           == Output(Tip(child1States), child1TransMat, Tip(child2States), child2TransMat, kCategoryCount, kPatternCount)
      ensures forall i :: kCategoryCount * kPatternCount * StateCount <= i < destP.Length ==> destP[i] == old(destP[i])
    {
      ghost var C, P := kCategoryCount, kPatternCount;
      ghost var spec := Output(Tip(child1States), child1TransMat, Tip(child2States), child2TransMat, C, P);
      var v := 0;
      var l := 0;
      while l < kCategoryCount
        invariant 0 <= l <= C && v == CategoryStart(P, l)
        invariant v <= |spec| && forall i :: 0 <= i < v ==> destP[i] == spec[i]
        invariant forall i :: v <= i < destP.Length ==> destP[i] == old(destP[i])
      {
        v := StatesStatesCategory(destP, v, l, child1States, child1TransMat, child2States, child2TransMat, spec);
        l := l + 1;
      }
      CategoryStartIs(P, C);
      Filled(destP, spec);
    }

    /** calcStatesStates' pattern loop for category l: the category's P*4 cells, written from v0 on. */
    method StatesStatesCategory(destP: array<real>, v0: int, l: int,
                                child1States: seq<int>, child1TransMat: seq<real>,
                                child2States: seq<int>, child2TransMat: seq<real>, ghost spec: seq<real>)
      returns (v: int)
      requires StatesOk(child1States, kPatternCount) && StatesOk(child2States, kPatternCount)
      requires MatricesOk(child1TransMat, kCategoryCount) && MatricesOk(child2TransMat, kCategoryCount)
      requires spec == Output(Tip(child1States), child1TransMat, Tip(child2States), child2TransMat, kCategoryCount, kPatternCount)
      requires 0 <= l < kCategoryCount && v0 == CategoryStart(kPatternCount, l)
      requires destP.Length >= kCategoryCount * kPatternCount * StateCount
      requires v0 <= |spec| && forall i :: 0 <= i < v0 ==> destP[i] == spec[i]
      modifies destP
      ensures v == CategoryStart(kPatternCount, l + 1)
      ensures v <= |spec| && forall i :: 0 <= i < v ==> destP[i] == spec[i]
      ensures forall i :: v <= i < destP.Length ==> destP[i] == old(destP[i])
    {
      ghost var C, P := kCategoryCount, kPatternCount;
      CategoryStartIs(P, l);
      CategoryFits(C, P, l);
      CategoriesGrow(l + 1, P);
      v := v0;
      var k := 0;
      while k < kPatternCount
        invariant 0 <= k <= P && v == v0 + k * StateCount
        invariant v <= |spec| && forall i :: 0 <= i < v ==> destP[i] == spec[i]
        invariant forall i :: v <= i < destP.Length ==> destP[i] == old(destP[i])
      {
        IdxSplit(P, l, k);
        v := StatesStatesPattern(destP, v, l, k, child1States, child1TransMat, child2States, child2TransMat, spec);
        k := k + 1;
      }
    }

    /**
     * The body of calcStatesStates' pattern loop: the four cells of pattern
     * k in category l, written at v0..v0+3, each the product of the two
     * children's entries in row s at their observed states; returns v0 + 4.
     */
    method StatesStatesPattern(destP: array<real>, v0: int, l: int, k: int,
                               child1States: seq<int>, child1TransMat: seq<real>,
                               child2States: seq<int>, child2TransMat: seq<real>, ghost spec: seq<real>)
      returns (v: int)
      requires StatesOk(child1States, kPatternCount) && StatesOk(child2States, kPatternCount)
      requires MatricesOk(child1TransMat, kCategoryCount) && MatricesOk(child2TransMat, kCategoryCount)
      requires spec == Output(Tip(child1States), child1TransMat, Tip(child2States), child2TransMat, kCategoryCount, kPatternCount)
      requires 0 <= l < kCategoryCount && 0 <= k < kPatternCount && v0 == Idx(kPatternCount, l, k, 0)
      requires v0 + StateCount <= destP.Length
      requires v0 <= |spec| && forall i :: 0 <= i < v0 ==> destP[i] == spec[i]
      modifies destP
      ensures v == v0 + StateCount
      ensures v <= |spec| && forall i :: 0 <= i < v ==> destP[i] == spec[i]
      ensures forall i :: v <= i < destP.Length ==> destP[i] == old(destP[i])
    {
      ghost var C, P := kCategoryCount, kPatternCount;
      OutputPattern(Tip(child1States), child1TransMat, Tip(child2States), child2TransMat, C, P, l, k, v0);
      v := v0;
      var state1 := child1States[k];
      var state2 := child2States[k];

      var w := l * kMatrixSize;

      StatesStatesCell(child1States, child1TransMat, child2States, child2TransMat, C, P, l, k, 0, w, state1, state2);
      destP[v] := child1TransMat[w + state1] * child2TransMat[w + state2];
      v := v + 1;  w := w + 5;
      StatesStatesCell(child1States, child1TransMat, child2States, child2TransMat, C, P, l, k, 1, w, state1, state2);
      destP[v] := child1TransMat[w + state1] * child2TransMat[w + state2];
      v := v + 1;  w := w + 5;
      StatesStatesCell(child1States, child1TransMat, child2States, child2TransMat, C, P, l, k, 2, w, state1, state2);
      destP[v] := child1TransMat[w + state1] * child2TransMat[w + state2];
      v := v + 1;  w := w + 5;
      StatesStatesCell(child1States, child1TransMat, child2States, child2TransMat, C, P, l, k, 3, w, state1, state2);
      destP[v] := child1TransMat[w + state1] * child2TransMat[w + state2];
      v := v + 1;  w := w + 5;
    }

    /** Partial likelihoods at a node whose first child is a tip and whose second child has partials. */
    method CalcStatesPartials(destP: array<real>,
                              states1: seq<int>, matrices1: seq<real>,
                              partials2: seq<real>, matrices2: seq<real>)
      requires StatesOk(states1, kPatternCount) && PartialsOk(partials2, kCategoryCount, kPatternCount)
      requires MatricesOk(matrices1, kCategoryCount) && MatricesOk(matrices2, kCategoryCount)
      requires destP.Length >= kCategoryCount * kPatternCount * StateCount
      modifies destP
      ensures destP[..kCategoryCount * kPatternCount * StateCount]
           == Output(Tip(states1), matrices1, Internal(partials2), matrices2, kCategoryCount, kPatternCount)
      ensures forall i :: kCategoryCount * kPatternCount * StateCount <= i < destP.Length ==> destP[i] == old(destP[i])
    {
      ghost var C, P := kCategoryCount, kPatternCount;
      ghost var spec := Output(Tip(states1), matrices1, Internal(partials2), matrices2, C, P);
      var u := 0;
      var v := 0;
      var l := 0;
      while l < kCategoryCount
        invariant 0 <= l <= C && u == CategoryStart(P, l) && v == u
        invariant u <= |spec| && forall i :: 0 <= i < u ==> destP[i] == spec[i]
        invariant forall i :: u <= i < destP.Length ==> destP[i] == old(destP[i])
      {
        u, v := StatesPartialsCategory(destP, u, v, l, states1, matrices1, partials2, matrices2, spec);
        l := l + 1;
      }
      CategoryStartIs(P, C);
      Filled(destP, spec);
    }

    /** calcStatesPartials' pattern loop for category l: the category's P*4 cells, written from u0 on. */
    method StatesPartialsCategory(destP: array<real>, u0: int, v0: int, l: int,
                              states1: seq<int>, matrices1: seq<real>,
                              partials2: seq<real>, matrices2: seq<real>, ghost spec: seq<real>)
      returns (u: int, v: int)
      requires StatesOk(states1, kPatternCount) && PartialsOk(partials2, kCategoryCount, kPatternCount)
      requires MatricesOk(matrices1, kCategoryCount) && MatricesOk(matrices2, kCategoryCount)
      requires spec == Output(Tip(states1), matrices1, Internal(partials2), matrices2, kCategoryCount, kPatternCount)
      requires 0 <= l < kCategoryCount && u0 == CategoryStart(kPatternCount, l) && v0 == u0
      requires destP.Length >= kCategoryCount * kPatternCount * StateCount
      requires u0 <= |spec| && forall i :: 0 <= i < u0 ==> destP[i] == spec[i]
      modifies destP
      ensures u == CategoryStart(kPatternCount, l + 1) && v == u
      ensures u <= |spec| && forall i :: 0 <= i < u ==> destP[i] == spec[i]
      ensures forall i :: u <= i < destP.Length ==> destP[i] == old(destP[i])
    {
      ghost var C, P := kCategoryCount, kPatternCount;
      CategoryStartIs(P, l);
      CategoryFits(C, P, l);
      CategoriesGrow(l + 1, P);
      u, v := u0, v0;
      var k := 0;
      while k < kPatternCount
        invariant 0 <= k <= P && u == u0 + k * StateCount && v == u
        invariant u <= |spec| && forall i :: 0 <= i < u ==> destP[i] == spec[i]
        invariant forall i :: u <= i < destP.Length ==> destP[i] == old(destP[i])
      {
        IdxSplit(P, l, k);
        u, v := StatesPartialsPattern(destP, u, v, l, k, states1, matrices1, partials2, matrices2, spec);
        k := k + 1;
      }
    }

    /**
     * The body of calcStatesPartials' pattern loop: for each parent state s,
     * the tip's entry in row s times the dot product of row s with the
     * second child's four partials at v0, written at u0 + s; returns both
     * positions advanced by 4.
     */
    method StatesPartialsPattern(destP: array<real>, u0: int, v0: int, l: int, k: int,
                              states1: seq<int>, matrices1: seq<real>,
                              partials2: seq<real>, matrices2: seq<real>, ghost spec: seq<real>)
      returns (u: int, v: int)
      requires StatesOk(states1, kPatternCount) && PartialsOk(partials2, kCategoryCount, kPatternCount)
      requires MatricesOk(matrices1, kCategoryCount) && MatricesOk(matrices2, kCategoryCount)
      requires spec == Output(Tip(states1), matrices1, Internal(partials2), matrices2, kCategoryCount, kPatternCount)
      requires 0 <= l < kCategoryCount && 0 <= k < kPatternCount && v0 == Idx(kPatternCount, l, k, 0) && u0 == v0
      requires u0 + StateCount <= destP.Length
      requires u0 <= |spec| && forall i :: 0 <= i < u0 ==> destP[i] == spec[i]
      modifies destP
      ensures u == u0 + StateCount && v == v0 + StateCount
      ensures u0 + StateCount <= |spec| && forall i :: 0 <= i < u0 + StateCount ==> destP[i] == spec[i]
      ensures forall i :: u0 + StateCount <= i < destP.Length ==> destP[i] == old(destP[i])
    {
      ghost var C, P := kCategoryCount, kPatternCount;
      OutputPattern(Tip(states1), matrices1, Internal(partials2), matrices2, C, P, l, k, v0);
      u, v := u0, v0;
      var state1 := states1[k];

      var w := l * kMatrixSize;

      StatesPartialsCell(states1, matrices1, partials2, matrices2, C, P, l, k, 0, w, v, state1);
      w := StatesPartialsEntry(destP, u, w, v, state1, matrices1, partials2, matrices2);
      assert destP[u] == spec[u0];
      u := u + 1;
      StatesPartialsCell(states1, matrices1, partials2, matrices2, C, P, l, k, 1, w, v, state1);
      w := StatesPartialsEntry(destP, u, w, v, state1, matrices1, partials2, matrices2);
      assert destP[u] == spec[u0 + 1];
      u := u + 1;
      StatesPartialsCell(states1, matrices1, partials2, matrices2, C, P, l, k, 2, w, v, state1);
      w := StatesPartialsEntry(destP, u, w, v, state1, matrices1, partials2, matrices2);
      assert destP[u] == spec[u0 + 2];
      u := u + 1;
      StatesPartialsCell(states1, matrices1, partials2, matrices2, C, P, l, k, 3, w, v, state1);
      w := StatesPartialsEntry(destP, u, w, v, state1, matrices1, partials2, matrices2);
      assert destP[u] == spec[u0 + 3];
      u := u + 1;

      v := v + StateCount;
    }

    /**
     * One of the four row blocks of calcStatesPartials' pattern loop: the
     * tip's entry in the matrix row at w, times that row's dot product with
     * the four partials at v, written at u; returns w advanced past the row
     * and its padding column.
     */
    method StatesPartialsEntry(destP: array<real>, u: int, w: int, v: int, state1: int,
                               matrices1: seq<real>, partials2: seq<real>, matrices2: seq<real>)
      returns (wNext: int)
      requires 0 <= u < destP.Length
      requires 0 <= w && 0 <= state1 && w + state1 < |matrices1| && w + StateCount <= |matrices2|
      requires 0 <= v && v + StateCount <= |partials2|
      modifies destP
      ensures wNext == w + RowStride
      ensures destP[u] == matrices1[w + state1] * Dot4(matrices2, w, partials2, v)
      ensures forall i :: 0 <= i < destP.Length && i != u ==> destP[i] == old(destP[i])
    {
      wNext := w;
      destP[u] := matrices1[wNext + state1];

      var sum := matrices2[wNext] * partials2[v]; wNext := wNext + 1;
      sum := sum + matrices2[wNext] * partials2[v + 1]; wNext := wNext + 1;
      sum := sum + matrices2[wNext] * partials2[v + 2]; wNext := wNext + 1;
      sum := sum + matrices2[wNext] * partials2[v + 3]; wNext := wNext + 1;
      wNext := wNext + 1; // skip the padding column
      destP[u] := destP[u] * sum;
    }

    /** Partial likelihoods at a node whose two children both have partials. */
    method CalcPartialsPartials(destP: array<real>,
                                partials1: seq<real>, matrices1: seq<real>,
                                partials2: seq<real>, matrices2: seq<real>)
      requires PartialsOk(partials1, kCategoryCount, kPatternCount) && PartialsOk(partials2, kCategoryCount, kPatternCount)
      requires MatricesOk(matrices1, kCategoryCount) && MatricesOk(matrices2, kCategoryCount)
      requires destP.Length >= kCategoryCount * kPatternCount * StateCount
      modifies destP
      ensures destP[..kCategoryCount * kPatternCount * StateCount]
           == Output(Internal(partials1), matrices1, Internal(partials2), matrices2, kCategoryCount, kPatternCount)
      ensures forall i :: kCategoryCount * kPatternCount * StateCount <= i < destP.Length ==> destP[i] == old(destP[i])
    {
      ghost var C, P := kCategoryCount, kPatternCount;
      ghost var spec := Output(Internal(partials1), matrices1, Internal(partials2), matrices2, C, P);
      var u := 0;
      var v := 0;
      var l := 0;
      while l < kCategoryCount
        invariant 0 <= l <= C && u == CategoryStart(P, l) && v == u
        invariant u <= |spec| && forall i :: 0 <= i < u ==> destP[i] == spec[i]
        invariant forall i :: u <= i < destP.Length ==> destP[i] == old(destP[i])
      {
        u, v := PartialsPartialsCategory(destP, u, v, l, partials1, matrices1, partials2, matrices2, spec);
        l := l + 1;
      }
      CategoryStartIs(P, C);
      Filled(destP, spec);
    }

    /** calcPartialsPartials' pattern loop for category l: the category's P*4 cells, written from u0 on. */
    method PartialsPartialsCategory(destP: array<real>, u0: int, v0: int, l: int,
                                partials1: seq<real>, matrices1: seq<real>,
                                partials2: seq<real>, matrices2: seq<real>, ghost spec: seq<real>)
      returns (u: int, v: int)
      requires PartialsOk(partials1, kCategoryCount, kPatternCount) && PartialsOk(partials2, kCategoryCount, kPatternCount)
      requires MatricesOk(matrices1, kCategoryCount) && MatricesOk(matrices2, kCategoryCount)
      requires spec == Output(Internal(partials1), matrices1, Internal(partials2), matrices2, kCategoryCount, kPatternCount)
      requires 0 <= l < kCategoryCount && u0 == CategoryStart(kPatternCount, l) && v0 == u0
      requires destP.Length >= kCategoryCount * kPatternCount * StateCount
      requires u0 <= |spec| && forall i :: 0 <= i < u0 ==> destP[i] == spec[i]
      modifies destP
      ensures u == CategoryStart(kPatternCount, l + 1) && v == u
      ensures u <= |spec| && forall i :: 0 <= i < u ==> destP[i] == spec[i]
      ensures forall i :: u <= i < destP.Length ==> destP[i] == old(destP[i])
    {
      ghost var C, P := kCategoryCount, kPatternCount;
      CategoryStartIs(P, l);
      CategoryFits(C, P, l);
      CategoriesGrow(l + 1, P);
      u, v := u0, v0;
      var k := 0;
      while k < kPatternCount
        invariant 0 <= k <= P && u == u0 + k * StateCount && v == u
        invariant u <= |spec| && forall i :: 0 <= i < u ==> destP[i] == spec[i]
        invariant forall i :: u <= i < destP.Length ==> destP[i] == old(destP[i])
      {
        IdxSplit(P, l, k);
        u, v := PartialsPartialsPattern(destP, u, v, l, k, partials1, matrices1, partials2, matrices2, spec);
        k := k + 1;
      }
    }

    /**
     * The body of calcPartialsPartials' pattern loop: for each parent state
     * s, the product of row s of each child's matrix dotted with that
     * child's four partials at v0, written at u0 + s; returns both
     * positions advanced by 4.
     */
    method PartialsPartialsPattern(destP: array<real>, u0: int, v0: int, l: int, k: int,
                                partials1: seq<real>, matrices1: seq<real>,
                                partials2: seq<real>, matrices2: seq<real>, ghost spec: seq<real>)
      returns (u: int, v: int)
      requires PartialsOk(partials1, kCategoryCount, kPatternCount) && PartialsOk(partials2, kCategoryCount, kPatternCount)
      requires MatricesOk(matrices1, kCategoryCount) && MatricesOk(matrices2, kCategoryCount)
      requires spec == Output(Internal(partials1), matrices1, Internal(partials2), matrices2, kCategoryCount, kPatternCount)
      requires 0 <= l < kCategoryCount && 0 <= k < kPatternCount && v0 == Idx(kPatternCount, l, k, 0) && u0 == v0
      requires u0 + StateCount <= destP.Length
      requires u0 <= |spec| && forall i :: 0 <= i < u0 ==> destP[i] == spec[i]
      modifies destP
      ensures u == u0 + StateCount && v == v0 + StateCount
      ensures u0 + StateCount <= |spec| && forall i :: 0 <= i < u0 + StateCount ==> destP[i] == spec[i]
      ensures forall i :: u0 + StateCount <= i < destP.Length ==> destP[i] == old(destP[i])
    {
      ghost var C, P := kCategoryCount, kPatternCount;
      OutputPattern(Internal(partials1), matrices1, Internal(partials2), matrices2, C, P, l, k, v0);
      u, v := u0, v0;

      var w := l * kMatrixSize;

      PartialsPartialsCell(partials1, matrices1, partials2, matrices2, C, P, l, k, 0, w, v);
      w := PartialsPartialsEntry(destP, u, w, v, partials1, matrices1, partials2, matrices2);
      assert destP[u] == spec[u0];
      u := u + 1;
      PartialsPartialsCell(partials1, matrices1, partials2, matrices2, C, P, l, k, 1, w, v);
      w := PartialsPartialsEntry(destP, u, w, v, partials1, matrices1, partials2, matrices2);
      assert destP[u] == spec[u0 + 1];
      u := u + 1;
      PartialsPartialsCell(partials1, matrices1, partials2, matrices2, C, P, l, k, 2, w, v);
      w := PartialsPartialsEntry(destP, u, w, v, partials1, matrices1, partials2, matrices2);
      assert destP[u] == spec[u0 + 2];
      u := u + 1;
      PartialsPartialsCell(partials1, matrices1, partials2, matrices2, C, P, l, k, 3, w, v);
      w := PartialsPartialsEntry(destP, u, w, v, partials1, matrices1, partials2, matrices2);
      assert destP[u] == spec[u0 + 3];
      u := u + 1;

      v := v + StateCount;
    }

    /**
     * One of the four row blocks of calcPartialsPartials' pattern loop: the
     * product of the matrix rows at w dotted with each child's four partials
     * at v, written at u; returns w advanced past the row and its padding
     * column.
     */
    method PartialsPartialsEntry(destP: array<real>, u: int, w: int, v: int,
                                 partials1: seq<real>, matrices1: seq<real>,
                                 partials2: seq<real>, matrices2: seq<real>)
      returns (wNext: int)
      requires 0 <= u < destP.Length
      requires 0 <= w && w + StateCount <= |matrices1| && w + StateCount <= |matrices2|
      requires 0 <= v && v + StateCount <= |partials1| && v + StateCount <= |partials2|
      modifies destP
      ensures wNext == w + RowStride
      ensures destP[u] == Dot4(matrices1, w, partials1, v) * Dot4(matrices2, w, partials2, v)
      ensures forall i :: 0 <= i < destP.Length && i != u ==> destP[i] == old(destP[i])
    {
      wNext := w;
      var sum1 := matrices1[wNext] * partials1[v];
      var sum2 := matrices2[wNext] * partials2[v]; wNext := wNext + 1;
      sum1 := sum1 + matrices1[wNext] * partials1[v + 1];
      sum2 := sum2 + matrices2[wNext] * partials2[v + 1]; wNext := wNext + 1;
      sum1 := sum1 + matrices1[wNext] * partials1[v + 2];
      sum2 := sum2 + matrices2[wNext] * partials2[v + 2]; wNext := wNext + 1;
      sum1 := sum1 + matrices1[wNext] * partials1[v + 3];
      sum2 := sum2 + matrices2[wNext] * partials2[v + 3]; wNext := wNext + 1;
      wNext := wNext + 1; // skip the padding column
      destP[u] := sum1 * sum2;
    }

    /**
     * Log-likelihood of each site pattern at the root: the root partials in
     * buffer `bufferIndex` are summed over categories with weights
     * `inWeights` into `integrationTmp`, then over states with
     * `inStateFrequencies`, and `ln` of that sum is written to
     * `outLogLikelihoods[k]`. `scalingFactorsIndex` is not used.
     */
    method CalcRootLogLikelihoods(bufferIndex: int, inWeights: seq<real>, inStateFrequencies: seq<real>,
                                  scalingFactorsIndex: int, outLogLikelihoods: array<real>, ln: real -> real)
      requires 0 <= bufferIndex < |partials|
      requires 1 <= kCategoryCount && |inWeights| >= kCategoryCount && |inStateFrequencies| >= StateCount
      requires partials[bufferIndex].Length >= kCategoryCount * kPatternCount * StateCount
      requires integrationTmp.Length >= kPatternCount * StateCount && outLogLikelihoods.Length >= kPatternCount
      requires integrationTmp != partials[bufferIndex] && outLogLikelihoods != partials[bufferIndex]
      requires outLogLikelihoods != integrationTmp
      modifies integrationTmp, outLogLikelihoods
      ensures forall i :: 0 <= i < kPatternCount * StateCount ==>
        integrationTmp[i] == Integrated(partials[bufferIndex][..], inWeights, kCategoryCount, kPatternCount, i)
      ensures forall k :: 0 <= k < kPatternCount ==>
        outLogLikelihoods[k]
        == ln(SiteLikelihood(partials[bufferIndex][..], inWeights, inStateFrequencies, kCategoryCount, kPatternCount, k))
      ensures forall i :: kPatternCount * StateCount <= i < integrationTmp.Length ==> integrationTmp[i] == old(integrationTmp[i])
      ensures forall k :: kPatternCount <= k < outLogLikelihoods.Length ==> outLogLikelihoods[k] == old(outLogLikelihoods[k])
    {
      ghost var C, P := kCategoryCount, kPatternCount;
      var rootPartials := partials[bufferIndex];
      ghost var root := rootPartials[..];
      var wt := inWeights;
      CategoryStartIs(P, C);
      CategoryStartMonotone(P, 1, C);
      var v := SeedFirstCategory(rootPartials, wt, root);
      var l := 1;
      while l < kCategoryCount
        invariant 1 <= l <= C && v == CategoryStart(P, l) && CategoryStart(P, l) <= |root|
        invariant unchanged(outLogLikelihoods)
        invariant forall i :: 0 <= i < P * StateCount ==> integrationTmp[i] == CategorySum(root, wt, P, i, l)
        invariant forall i :: P * StateCount <= i < integrationTmp.Length ==> integrationTmp[i] == old(integrationTmp[i])
      {
        CategoryStartMonotone(P, l + 1, C);
        v := AccumulateCategory(rootPartials, wt, l, v, root);
        l := l + 1;
      }
      ReduceStates(inStateFrequencies, outLogLikelihoods, ln, root, wt);
    }

    /**
     * calcRootLogLikelihoods' first loop: category 0's root partials times
     * wt[0], assigned to the P*4 cells of `integrationTmp`; returns the read
     * position, the start of category 1.
     */
    method SeedFirstCategory(rootPartials: array<real>, wt: seq<real>, ghost root: seq<real>) returns (v: int)
      requires rootPartials != integrationTmp && root == rootPartials[..]
      requires 1 <= |wt| && CategoryStart(kPatternCount, 1) <= |root|
      requires integrationTmp.Length >= kPatternCount * StateCount
      modifies integrationTmp
      ensures v == CategoryStart(kPatternCount, 1)
      ensures forall i :: 0 <= i < kPatternCount * StateCount ==> integrationTmp[i] == CategorySum(root, wt, kPatternCount, i, 1)
      ensures forall i :: kPatternCount * StateCount <= i < integrationTmp.Length ==> integrationTmp[i] == old(integrationTmp[i])
    {
      ghost var P := kPatternCount;
      v := 0;
      var k := 0;
      while k < kPatternCount
        invariant 0 <= k <= P && v == k * StateCount
        invariant forall i :: 0 <= i < v ==> integrationTmp[i] == CategorySum(root, wt, P, i, 1)
        invariant forall i :: v <= i < integrationTmp.Length ==> integrationTmp[i] == old(integrationTmp[i])
      {
        PatternFits(P, k);
        v := SeedPattern(rootPartials, wt, v, root);
        k := k + 1;
      }
    }

    /** The body of calcRootLogLikelihoods' first loop: four cells from v0 on, each root[i] * wt[0]. */
    method SeedPattern(rootPartials: array<real>, wt: seq<real>, v0: int, ghost root: seq<real>) returns (v: int)
      requires rootPartials != integrationTmp && root == rootPartials[..]
      requires 1 <= |wt| && CategoryStart(kPatternCount, 1) <= |root|
      requires 0 <= v0 && v0 + StateCount <= kPatternCount * StateCount <= integrationTmp.Length
      requires forall i :: 0 <= i < v0 ==> integrationTmp[i] == CategorySum(root, wt, kPatternCount, i, 1)
      modifies integrationTmp
      ensures v == v0 + StateCount
      ensures forall i :: 0 <= i < v ==> integrationTmp[i] == CategorySum(root, wt, kPatternCount, i, 1)
      ensures forall i :: v <= i < integrationTmp.Length ==> integrationTmp[i] == old(integrationTmp[i])
    {
      ghost var P := kPatternCount;
      CategorySumFirst(root, wt, P, v0);
      CategorySumFirst(root, wt, P, v0 + 1);
      CategorySumFirst(root, wt, P, v0 + 2);
      CategorySumFirst(root, wt, P, v0 + 3);
      v := v0;
      integrationTmp[v] := rootPartials[v] * wt[0];  v := v + 1;
      integrationTmp[v] := rootPartials[v] * wt[0];  v := v + 1;
      integrationTmp[v] := rootPartials[v] * wt[0];  v := v + 1;
      integrationTmp[v] := rootPartials[v] * wt[0];  v := v + 1;
    }

    /**
     * One pass of calcRootLogLikelihoods' second loop: category l's root
     * partials, read from v0 on, times the category's weight, added to the
     * P*4 running sums; returns v0 advanced past the category.
     */
    method AccumulateCategory(rootPartials: array<real>, wt: seq<real>, l: int, v0: int, ghost root: seq<real>)
      returns (v: int)
      requires rootPartials != integrationTmp && root == rootPartials[..]
      requires 0 <= l < |wt| && v0 == CategoryStart(kPatternCount, l)
      requires CategoryStart(kPatternCount, l + 1) <= |root|
      requires integrationTmp.Length >= kPatternCount * StateCount
      requires forall i :: 0 <= i < kPatternCount * StateCount ==>
        integrationTmp[i] == CategorySum(root, wt, kPatternCount, i, l)
      modifies integrationTmp
      ensures v == CategoryStart(kPatternCount, l + 1)
      ensures forall i :: 0 <= i < kPatternCount * StateCount ==>
        integrationTmp[i] == CategorySum(root, wt, kPatternCount, i, l + 1)
      ensures forall i :: kPatternCount * StateCount <= i < integrationTmp.Length ==> integrationTmp[i] == old(integrationTmp[i])
    {
      ghost var P := kPatternCount;
      v := v0;
      var u := 0;
      var k := 0;
      while k < kPatternCount
        invariant 0 <= k <= P && u == k * StateCount && v == v0 + u
        invariant forall i :: 0 <= i < u ==> integrationTmp[i] == CategorySum(root, wt, P, i, l + 1)
        invariant forall i :: u <= i < P * StateCount ==> integrationTmp[i] == CategorySum(root, wt, P, i, l)
        invariant forall i :: P * StateCount <= i < integrationTmp.Length ==> integrationTmp[i] == old(integrationTmp[i])
      {
        PatternFits(P, k);
        u, v := AccumulatePattern(rootPartials, wt, l, u, v, root);
        k := k + 1;
      }
    }

    /** The body of calcRootLogLikelihoods' second loop: four running sums from u0 on, each plus root[v] * wt[l]. */
    method AccumulatePattern(rootPartials: array<real>, wt: seq<real>, l: int, u0: int, v0: int, ghost root: seq<real>)
      returns (u: int, v: int)
      requires rootPartials != integrationTmp && root == rootPartials[..]
      requires 0 <= l < |wt| && CategoryStart(kPatternCount, l + 1) <= |root|
      requires 0 <= u0 && u0 + StateCount <= kPatternCount * StateCount <= integrationTmp.Length
      requires v0 == CategoryStart(kPatternCount, l) + u0
      requires forall i :: 0 <= i < u0 ==> integrationTmp[i] == CategorySum(root, wt, kPatternCount, i, l + 1)
      requires forall i :: u0 <= i < kPatternCount * StateCount ==> integrationTmp[i] == CategorySum(root, wt, kPatternCount, i, l)
      modifies integrationTmp
      ensures u == u0 + StateCount && v == v0 + StateCount
      ensures forall i :: 0 <= i < u ==> integrationTmp[i] == CategorySum(root, wt, kPatternCount, i, l + 1)
      ensures forall i :: u <= i < kPatternCount * StateCount ==> integrationTmp[i] == CategorySum(root, wt, kPatternCount, i, l)
      ensures forall i :: kPatternCount * StateCount <= i < integrationTmp.Length ==> integrationTmp[i] == old(integrationTmp[i])
    {
      u, v := u0, v0;
      AccumulateCell(rootPartials, wt, l, u, v, root);  u := u + 1;  v := v + 1;
      AccumulateCell(rootPartials, wt, l, u, v, root);  u := u + 1;  v := v + 1;
      AccumulateCell(rootPartials, wt, l, u, v, root);  u := u + 1;  v := v + 1;
      AccumulateCell(rootPartials, wt, l, u, v, root);  u := u + 1;  v := v + 1;
    }

    /** One statement of calcRootLogLikelihoods' second loop: running sum u plus root[v] * wt[l]. */
    method AccumulateCell(rootPartials: array<real>, wt: seq<real>, l: int, u: int, v: int, ghost root: seq<real>)
      requires rootPartials != integrationTmp && root == rootPartials[..]
      requires 0 <= l < |wt| && CategoryStart(kPatternCount, l + 1) <= |root|
      requires 0 <= u < kPatternCount * StateCount <= integrationTmp.Length
      requires v == CategoryStart(kPatternCount, l) + u
      requires integrationTmp[u] == CategorySum(root, wt, kPatternCount, u, l)
      modifies integrationTmp
      ensures integrationTmp[u] == CategorySum(root, wt, kPatternCount, u, l + 1)
      ensures forall i :: 0 <= i < integrationTmp.Length && i != u ==> integrationTmp[i] == old(integrationTmp[i])
    {
      CategorySumNext(root, wt, kPatternCount, u, l);
      integrationTmp[u] := integrationTmp[u] + rootPartials[v] * wt[l];
    }

    /**
     * calcRootLogLikelihoods' last loop: for each pattern, the four
     * integrated cells weighted by the state frequencies, summed, and `ln`
     * of the sum written to outLogLikelihoods[k].
     */
    method ReduceStates(freq: seq<real>, outLogLikelihoods: array<real>, ln: real -> real,
                        ghost root: seq<real>, ghost wt: seq<real>)
      requires outLogLikelihoods != integrationTmp
      requires |freq| >= StateCount && |wt| >= kCategoryCount && |root| >= kCategoryCount * kPatternCount * StateCount
      requires integrationTmp.Length >= kPatternCount * StateCount && outLogLikelihoods.Length >= kPatternCount
      requires forall i :: 0 <= i < kPatternCount * StateCount ==>
        integrationTmp[i] == Integrated(root, wt, kCategoryCount, kPatternCount, i)
      modifies outLogLikelihoods
      ensures forall k :: 0 <= k < kPatternCount ==>
        outLogLikelihoods[k] == ln(SiteLikelihood(root, wt, freq, kCategoryCount, kPatternCount, k))
      ensures forall k :: kPatternCount <= k < outLogLikelihoods.Length ==> outLogLikelihoods[k] == old(outLogLikelihoods[k])
    {
      ghost var C, P := kCategoryCount, kPatternCount;
      var u := 0;
      var k := 0;
      while k < kPatternCount
        invariant 0 <= k <= P && u == k * StateCount
        invariant forall k0 :: 0 <= k0 < k ==> outLogLikelihoods[k0] == ln(SiteLikelihood(root, wt, freq, C, P, k0))
        invariant forall k0 :: k <= k0 < outLogLikelihoods.Length ==> outLogLikelihoods[k0] == old(outLogLikelihoods[k0])
      {
        u := ReducePattern(freq, outLogLikelihoods, ln, k, u, root, wt);
        k := k + 1;
      }
    }

    /**
     * The body of calcRootLogLikelihoods' last loop: the four integrated
     * cells of pattern k, read from u0 on, weighted by the state
     * frequencies and summed; `ln` of the sum goes to outLogLikelihoods[k].
     */
    method ReducePattern(freq: seq<real>, outLogLikelihoods: array<real>, ln: real -> real, k: int, u0: int,
                         ghost root: seq<real>, ghost wt: seq<real>)
      returns (u: int)
      requires outLogLikelihoods != integrationTmp
      requires |freq| >= StateCount && |wt| >= kCategoryCount && |root| >= kCategoryCount * kPatternCount * StateCount
      requires integrationTmp.Length >= kPatternCount * StateCount && outLogLikelihoods.Length >= kPatternCount
      requires forall i :: 0 <= i < kPatternCount * StateCount ==>
        integrationTmp[i] == Integrated(root, wt, kCategoryCount, kPatternCount, i)
      requires 0 <= k < kPatternCount && u0 == k * StateCount
      modifies outLogLikelihoods
      ensures u == u0 + StateCount
      ensures outLogLikelihoods[k] == ln(SiteLikelihood(root, wt, freq, kCategoryCount, kPatternCount, k))
      ensures forall i :: 0 <= i < outLogLikelihoods.Length && i != k ==> outLogLikelihoods[i] == old(outLogLikelihoods[i])
    {
      ghost var C, P := kCategoryCount, kPatternCount;
      PatternFits(P, k);
      assert integrationTmp[u0] == Integrated(root, wt, C, P, u0);
      assert integrationTmp[u0 + 1] == Integrated(root, wt, C, P, u0 + 1);
      assert integrationTmp[u0 + 2] == Integrated(root, wt, C, P, u0 + 2);
      assert integrationTmp[u0 + 3] == Integrated(root, wt, C, P, u0 + 3);
      u := u0;
      var sum := freq[0] * integrationTmp[u];  u := u + 1;
      sum := sum + freq[1] * integrationTmp[u];  u := u + 1;
      sum := sum + freq[2] * integrationTmp[u];  u := u + 1;
      sum := sum + freq[3] * integrationTmp[u];  u := u + 1;
      assert sum == SiteLikelihood(root, wt, freq, C, P, k);
      outLogLikelihoods[k] := ln(sum);
    }
  }

  /** How the base class's createInstance ended: with a status code, or by throwing. */
  datatype InstanceOutcome = Returned(code: int) | Threw

  /** What createImpl hands back: the new instance, a null pointer, or the rethrown exception. */
  datatype FactoryResult = Instance(impl: BeagleCPU4StateImpl) | Null | Rethrow

  /**
   * BeagleCPU4StateImplFactory::createImpl: only a 4-state request gets an
   * instance, and only when createInstance, applied to the same arguments,
   * returns 0; any other code gives null, and an exception is passed on.
   */
  method CreateImpl(tipCount: int, partialsBufferCount: int, compactBufferCount: int, stateCount: int,
                    patternCount: int, eigenBufferCount: int, matrixBufferCount: int, categoryCount: int,
                    scaleBufferCount: int,
                    createInstance: (int, int, int, int, int, int, int, int, int) -> InstanceOutcome)
    returns (r: FactoryResult)
    ensures r.Instance? ==> fresh(r.impl)
    ensures var outcome := createInstance(tipCount, partialsBufferCount, compactBufferCount, stateCount,
                                          patternCount, eigenBufferCount, matrixBufferCount,
                                          categoryCount, scaleBufferCount);
      && (r.Instance? <==> stateCount == StateCount && outcome == Returned(0))
      && (r.Rethrow? <==> stateCount == StateCount && outcome == Threw)
      && (r.Null? <==> stateCount != StateCount || (outcome.Returned? && outcome.code != 0))
  {
    if stateCount != StateCount {
      return Null;
    }
    var impl := new BeagleCPU4StateImpl();
    var outcome := createInstance(tipCount, partialsBufferCount, compactBufferCount, stateCount,
                                  patternCount, eigenBufferCount, matrixBufferCount,
                                  categoryCount, scaleBufferCount);
    match outcome
    case Threw =>
      return Rethrow;
    case Returned(code) =>
      if code == 0 {
        return Instance(impl);
      }
      return Null;
  }

  /** An array that agrees with `r` below |r| starts with `r`. */
  lemma Filled(a: array<real>, r: seq<real>)
    requires |r| <= a.Length && forall i :: 0 <= i < |r| ==> a[i] == r[i]
    ensures a[..|r|] == r
  {
  }
}
