# BEAGLE 4-state CPU kernels in Dafny

BEAGLE evaluates phylogenetic likelihoods. `BeagleCPU4StateImpl` is its CPU
implementation specialised to four states (nucleotides).

For each rate category `l` and site pattern `k`, the partial likelihoods at an
internal node combine the node's two children through their transition-probability
matrices. The combination is one of three kernels, chosen by what the children are:
- `calcStatesStates`: both children are tips with observed states.
- `calcStatesPartials`: the first child is such a tip and the second has partials.
- `calcPartialsPartials`: both children have partials.

At the root, `calcRootLogLikelihoods` reduces the partials to one log-likelihood per
pattern. It first sums over categories with the category weights, then over states
with the equilibrium state frequencies. The factory `createImpl` builds an instance
only for a 4-state request.

The model has four modules:

- `Layout`: the flat buffer layout.
  - A partials buffer is indexed `[category][pattern][state]`, so cell `(l, k, s)`
    is at `(l*P + k)*4 + s` (`Idx`).
  - A matrix buffer holds one 4x5 block per category. Entry `(l, row, col)` is at
    `l*20 + row*5 + col` (`MIdx`), and column 4 of every row is padding.
  - `CategoryStart(P, l)` is the offset of category `l`, defined by recursion and
    proved equal to `l*P*4`.
- `KernelSpec`: what the kernels compute, stated independently of their loops.
  - A child is a `Tip` (state codes) or `Internal` (a partials buffer).
  - `Cell` is the closed form of one output cell.
  - `Output` is the whole C*P*4 output buffer.
  - Further lemmas relate the kernels to each other and to the buffer layout.
- `RootSpec`: the category sums (`CategorySum`, `Integrated`) and the per-pattern
  likelihood (`SiteLikelihood`) whose logarithm the root integration stores.
- `BeagleCPU4State`:
  - The class `BeagleCPU4StateImpl` holds the instance state the kernels use:
    `kCategoryCount`, `kPatternCount`, `kMatrixSize`, `integrationTmp` and the
    `partials` buffers.
  - Its methods are the four kernels, written with the source's running indices
    `u`, `v`, `w` over arrays.
  - Each kernel is proved against the specification functions above.
  - `CreateImpl` models the factory.

Doubles are modelled as `real`. The kernels' output buffers and the root scratch
buffer are `array<real>`, updated in place. The read-only inputs (`const` pointers in
the source) are sequences.

The matrix convention follows the code. For output (parent) state `s`, every kernel
reads row `s` of the category block (`w = l*20 + s*5`). A tip with state `c` then
selects column `c`, and an internal child takes the dot product of that row with its
four partials. Rows are indexed by the parent state and columns by the child state,
never the other way round.

## Model

| member | source | states |
|---|---|---|
| BeagleCPU4State.BeagleCPU4StateImpl.CalcStatesStates | libhmsbeagle/CPU/BeagleCPU4StateImpl.cpp:47-73 | the first C*P*4 cells of destP become exactly `Output(Tip, Tip)`: cell (l,k,s) = m1[l*20+s*5+state1[k]] * m2[l*20+s*5+state2[k]]; every cell past C*P*4 is unchanged |
| BeagleCPU4State.BeagleCPU4StateImpl.StatesStatesCategory | libhmsbeagle/CPU/BeagleCPU4StateImpl.cpp:55-71 | the pattern loop of category l writes cells CategoryStart(P,l) up to CategoryStart(P,l+1) to their closed form; the earlier cells keep their values and later ones are untouched |
| BeagleCPU4State.BeagleCPU4StateImpl.StatesStatesPattern | libhmsbeagle/CPU/BeagleCPU4StateImpl.cpp:57-69 | the four unrolled statements write cells v..v+3 of pattern k, one matrix row (stride 5) each, and advance v by 4 |
| BeagleCPU4State.BeagleCPU4StateImpl.CalcStatesPartials | libhmsbeagle/CPU/BeagleCPU4StateImpl.cpp:78-133 | the first C*P*4 cells of destP become exactly `Output(Tip, Internal)`: the tip's matrix entry times the row's dot product with the four partials; nothing past C*P*4 changes |
| BeagleCPU4State.BeagleCPU4StateImpl.StatesPartialsCategory | libhmsbeagle/CPU/BeagleCPU4StateImpl.cpp:87-131 | the pattern loop of category l extends the correct prefix of destP by the category's P*4 cells, with u and v running in step |
| BeagleCPU4State.BeagleCPU4StateImpl.StatesPartialsPattern | libhmsbeagle/CPU/BeagleCPU4StateImpl.cpp:89-129 | the four row blocks write cells u0..u0+3 of pattern k to their closed form and change no other cell; it returns the write position u0+4 and the partials read position v0+4 |
| BeagleCPU4State.BeagleCPU4StateImpl.StatesPartialsEntry | libhmsbeagle/CPU/BeagleCPU4StateImpl.cpp:91-100 | one row block writes destP[u] = matrices1[w+state1] * Dot4(matrices2 row at w, partials2 at v), changes no other cell, and advances w by 5, skipping the padding column |
| BeagleCPU4State.BeagleCPU4StateImpl.CalcPartialsPartials | libhmsbeagle/CPU/BeagleCPU4StateImpl.cpp:135-197 | the first C*P*4 cells of destP become exactly `Output(Internal, Internal)`: the product of the two children's row dot products; nothing past C*P*4 changes |
| BeagleCPU4State.BeagleCPU4StateImpl.PartialsPartialsCategory | libhmsbeagle/CPU/BeagleCPU4StateImpl.cpp:145-195 | the pattern loop of category l extends the correct prefix of destP by the category's P*4 cells |
| BeagleCPU4State.BeagleCPU4StateImpl.PartialsPartialsPattern | libhmsbeagle/CPU/BeagleCPU4StateImpl.cpp:147-193 | the four row blocks write cells u0..u0+3 of pattern k to their closed form and change no other cell; it returns u0+4 and v0+4 |
| BeagleCPU4State.BeagleCPU4StateImpl.PartialsPartialsEntry | libhmsbeagle/CPU/BeagleCPU4StateImpl.cpp:147-158 | one row block writes destP[u] = Dot4(m1 row, p1) * Dot4(m2 row, p2), changes no other cell, and advances w by 5 |
| BeagleCPU4State.BeagleCPU4StateImpl.CalcRootLogLikelihoods | libhmsbeagle/CPU/BeagleCPU4StateImpl.cpp:199-235 | requires at least one category; integrationTmp[i] ends as the weighted sum over all categories of root cell i, and outLogLikelihoods[k] = ln(Σ_s freq[s] * integrationTmp[4k+s]); only integrationTmp[0..P*4) and outLogLikelihoods[0..P) change |
| BeagleCPU4State.BeagleCPU4StateImpl.SeedFirstCategory | libhmsbeagle/CPU/BeagleCPU4StateImpl.cpp:212-217 | the first loop sets every cell of integrationTmp below P*4 to the one-category sum root[i]*wt[0] and leaves v at the start of category 1 |
| BeagleCPU4State.BeagleCPU4StateImpl.SeedPattern | libhmsbeagle/CPU/BeagleCPU4StateImpl.cpp:213-216 | the four statements extend the seeded prefix by four cells |
| BeagleCPU4State.BeagleCPU4StateImpl.AccumulateCategory | libhmsbeagle/CPU/BeagleCPU4StateImpl.cpp:219-225 | one pass over category l turns every running sum of l categories into the sum of l+1 categories, with v advancing past the category |
| BeagleCPU4State.BeagleCPU4StateImpl.AccumulatePattern | libhmsbeagle/CPU/BeagleCPU4StateImpl.cpp:221-224 | the four statements advance four running sums from l to l+1 categories; the cells before them already include category l and the cells after do not yet |
| BeagleCPU4State.BeagleCPU4StateImpl.AccumulateCell | libhmsbeagle/CPU/BeagleCPU4StateImpl.cpp:221 | `integrationTmp[u] += rootPartials[v]*wt[l]` turns the l-category sum of cell u into the (l+1)-category sum; no other cell changes |
| BeagleCPU4State.BeagleCPU4StateImpl.ReduceStates | libhmsbeagle/CPU/BeagleCPU4StateImpl.cpp:227-234 | from fully integrated cells, outLogLikelihoods[k] = ln(SiteLikelihood(k)) for every k < P; later entries are unchanged |
| BeagleCPU4State.BeagleCPU4StateImpl.ReducePattern | libhmsbeagle/CPU/BeagleCPU4StateImpl.cpp:229-233 | the frequency-weighted sum of pattern k's four integrated cells, passed through ln, is stored in outLogLikelihoods[k] only |
| BeagleCPU4State.BeagleCPU4StateImpl.constructor | libhmsbeagle/CPU/BeagleCPU4StateImpl.cpp:254 | allocates a new instance. The C++ constructor is declared in a header outside this model, so the zero counts, the empty scratch buffer and the empty `partials` list are placeholders until createInstance sizes the instance; no kernel contract depends on them |
| BeagleCPU4State.CreateImpl | libhmsbeagle/CPU/BeagleCPU4StateImpl.cpp:240-272 | an instance is returned iff stateCount == 4 and createInstance returns 0, and it is the freshly allocated object; null iff stateCount != 4 or createInstance returns a non-zero code; the exception is rethrown iff stateCount == 4 and createInstance throws |
| Layout.IdxInRange | libhmsbeagle/CPU/BeagleCPU4StateImpl.cpp:62 | every cell (l,k,s) with l < C, k < P, s < 4 the kernels write lies inside [0, C*P*4) |
| Layout.CategoryStartIs | libhmsbeagle/CPU/BeagleCPU4StateImpl.cpp:52-72 | after l categories the running write index equals l*P*4 |
| Layout.CategoryStartMonotone | libhmsbeagle/CPU/BeagleCPU4StateImpl.cpp:218-226 | the read position of an earlier category never lies past that of a later one, so reads of categories below C stay within the root buffer |
| Layout.IdxStart | libhmsbeagle/CPU/BeagleCPU4StateImpl.cpp:83-131 | cell (l,k,s) sits k*4+s past the start of category l, the position the running indices u and v reach |
| Layout.IdxCovers | libhmsbeagle/CPU/BeagleCPU4StateImpl.cpp:47-73 | every index below C*P*4 is the cell of some (category, pattern, state) in range, so the loops write every cell of the output |
| Layout.IdxInverse | libhmsbeagle/CPU/BeagleCPU4StateImpl.cpp:47-73 | dividing a cell index by 4 and by P recovers its category, pattern and state |
| Layout.IdxInjective | libhmsbeagle/CPU/BeagleCPU4StateImpl.cpp:47-73 | distinct (category, pattern, state) triples occupy distinct cells, so no kernel write overwrites another |
| Layout.MIdxInRange | libhmsbeagle/CPU/BeagleCPU4StateImpl.cpp:91-99 | every matrix read at row < 4, column < 4 of a category below C is in bounds and never in the padding column |
| KernelSpec.CategoryCells | libhmsbeagle/CPU/BeagleCPU4StateImpl.cpp:55-71 | one category's block of output cells has P*4 entries |
| KernelSpec.Categories | libhmsbeagle/CPU/BeagleCPU4StateImpl.cpp:53-72 | the cells of categories 0..n-1 fill exactly the first CategoryStart(P, n) positions |
| KernelSpec.Output | libhmsbeagle/CPU/BeagleCPU4StateImpl.cpp:47-73 | the kernel output has exactly C*P*4 cells |
| KernelSpec.CategoryCellsAt | libhmsbeagle/CPU/BeagleCPU4StateImpl.cpp:55-69 | within a category block, pattern k's state s is at k*4+s and holds Cell(l,k,s) |
| KernelSpec.CategoriesAt | libhmsbeagle/CPU/BeagleCPU4StateImpl.cpp:53-72 | entry i of category l's block lies at CategoryStart(P,l)+i of every prefix of categories that includes l |
| KernelSpec.OutputAt | libhmsbeagle/CPU/BeagleCPU4StateImpl.cpp:47-73 | output cell (l*P+k)*4+s holds the closed form Cell(l,k,s) |
| KernelSpec.OutputPattern | libhmsbeagle/CPU/BeagleCPU4StateImpl.cpp:57-69 | the four cells at v = Idx(l,k,0) .. v+3 hold Cell(l,k,0..3), one per matrix row |
| KernelSpec.OutputsAgree | libhmsbeagle/CPU/BeagleCPU4StateImpl.cpp:135-197 | two kernel calls whose cells agree at every (l,k,s) give identical output buffers |
| KernelSpec.OneHot | libhmsbeagle/CPU/BeagleCPU4StateImpl.cpp:89-93 | the dense expansion of tip states is a well-shaped C*P*4 partials buffer |
| KernelSpec.OneHotAt | libhmsbeagle/CPU/BeagleCPU4StateImpl.cpp:89-93 | the dense tip partial of (l,k,t) is 1 iff the observed state of pattern k is t, and 0 otherwise |
| KernelSpec.TipIsOneHot | libhmsbeagle/CPU/BeagleCPU4StateImpl.cpp:93 | reading column state1 of the row gives the same factor as the row's dot product with the one-hot partials of that state |
| KernelSpec.StatesStatesCell | libhmsbeagle/CPU/BeagleCPU4StateImpl.cpp:57-62 | with w = l*20 + s*5, the reads w+state1 and w+state2 are in bounds, and their product is Cell(Tip, Tip) at (l,k,s) |
| KernelSpec.StatesPartialsCell | libhmsbeagle/CPU/BeagleCPU4StateImpl.cpp:89-100 | with w = l*20 + s*5 and v = Idx(l,k,0), the reads are in bounds, and matrices1[w+state1] * Dot4(matrices2, w, partials2, v) is Cell(Tip, Internal) at (l,k,s) |
| KernelSpec.PartialsPartialsCell | libhmsbeagle/CPU/BeagleCPU4StateImpl.cpp:147-158 | with w = l*20 + s*5 and v = Idx(l,k,0), the reads are in bounds, and sum1*sum2 is Cell(Internal, Internal) at (l,k,s) |
| KernelSpec.SameContributions | libhmsbeagle/CPU/BeagleCPU4StateImpl.cpp:62 | a proof step: a cell depends on its children only through their two factors, stated for arbitrary children so the one-hot lemmas need not expand them |
| KernelSpec.StatesStatesIsPartialsPartials | libhmsbeagle/CPU/BeagleCPU4StateImpl.cpp:47-73 | calcStatesStates produces exactly calcPartialsPartials' output for the one-hot partials of both tips |
| KernelSpec.StatesPartialsIsPartialsPartials | libhmsbeagle/CPU/BeagleCPU4StateImpl.cpp:78-133 | calcStatesPartials produces exactly calcPartialsPartials' output for the one-hot partials of the tip |
| KernelSpec.EntryIgnoresPadding | libhmsbeagle/CPU/BeagleCPU4StateImpl.cpp:99 | matrix buffers that differ only in padding columns agree at every entry a kernel reads |
| KernelSpec.ContributionIgnoresPadding | libhmsbeagle/CPU/BeagleCPU4StateImpl.cpp:91-100 | a child's factor does not depend on the matrix's padding column |
| KernelSpec.KernelsIgnorePadding | libhmsbeagle/CPU/BeagleCPU4StateImpl.cpp:157 | changing the padding columns of either matrix leaves the whole kernel output unchanged |
| KernelSpec.ContributionNonNegative | libhmsbeagle/CPU/BeagleCPU4StateImpl.cpp:95-100 | non-negative matrices and partials give a non-negative factor |
| KernelSpec.CellNonNegative | libhmsbeagle/CPU/BeagleCPU4StateImpl.cpp:158 | non-negative inputs give non-negative output cells, so the partials remain probabilities |
| KernelSpec.OutputNonNegative | libhmsbeagle/CPU/BeagleCPU4StateImpl.cpp:47-197 | non-negative matrices and partials give a whole output buffer of non-negative cells, for each of the three kernels |
| KernelSpec.RowDotIdentity | libhmsbeagle/CPU/BeagleCPU4StateImpl.cpp:149-157 | with an identity matrix (a zero-length branch), the row dot product returns the partial of the row's own state |
| KernelSpec.PartialsPartialsIdentity | libhmsbeagle/CPU/BeagleCPU4StateImpl.cpp:147-158 | with identity matrices on both branches, calcPartialsPartials multiplies the children's partials cell by cell |
| KernelSpec.PartialsPartialsIdentityOutput | libhmsbeagle/CPU/BeagleCPU4StateImpl.cpp:135-197 | with identity matrices in every category of both branches, every cell i of calcPartialsPartials' output is p1[i]*p2[i] |
| KernelSpec.PartialsPartialsScales | libhmsbeagle/CPU/BeagleCPU4StateImpl.cpp:147-158 | scaling either child's partials by c scales each output cell by c (the kernel is linear in each child) |
| KernelSpec.RowDotScales | libhmsbeagle/CPU/BeagleCPU4StateImpl.cpp:149-157 | a row's four-term dot product with partials scaled by c is c times the dot product with the original partials |
| KernelSpec.OutputsScale | libhmsbeagle/CPU/BeagleCPU4StateImpl.cpp:135-197 | two kernel calls whose cells differ by the factor c at every (l,k,s) give output buffers that differ by the factor c |
| KernelSpec.OutputScalesAt | libhmsbeagle/CPU/BeagleCPU4StateImpl.cpp:158 | the factor c between two cells carries over to their position (l*P+k)*4+s in the output buffers |
| KernelSpec.PartialsPartialsScalesOutput | libhmsbeagle/CPU/BeagleCPU4StateImpl.cpp:135-197 | scaling either child's whole partials buffer by c scales calcPartialsPartials' whole output buffer by c |
| RootSpec.CategorySumFirst | libhmsbeagle/CPU/BeagleCPU4StateImpl.cpp:213 | the one-category sum of cell i is rootPartials[i]*wt[0] |
| RootSpec.CategorySumNext | libhmsbeagle/CPU/BeagleCPU4StateImpl.cpp:221 | the (l+1)-category sum is the l-category sum plus the cell's partial in category l times wt[l] |
| RootSpec.SingleCategoryUniform | libhmsbeagle/CPU/BeagleCPU4StateImpl.cpp:227-233 | with one category of weight 1 and uniform frequencies, a pattern's likelihood is a quarter of the sum of its four root partials |
| RootSpec.CategorySumNonNegative | libhmsbeagle/CPU/BeagleCPU4StateImpl.cpp:218-226 | non-negative root partials and weights give non-negative category sums |
| RootSpec.CategorySumScales | libhmsbeagle/CPU/BeagleCPU4StateImpl.cpp:199-235 | root partials scaled by c give category sums scaled by c; the integrator applies no scaling correction of its own |

## Left out

- Floating point: doubles are modelled as exact reals. IEEE rounding, overflow and underflow are not modelled. The model keeps the order in which the source accumulates each sum, but real addition does not depend on that order.
- `log` is passed to `CalcRootLogLikelihoods` as a function parameter `ln`. Its value at 0 (negative infinity) and at negative arguments is not modelled.
- BeagleCPU4State.BeagleCPU4StateImpl.CalcRootLogLikelihoods: `scalingFactorsIndex` is accepted and unused, as in the source. Any scaling correction happens outside this code, and the model says nothing about it.
- BeagleCPU4State.BeagleCPU4StateImpl.CalcRootLogLikelihoods: requires kCategoryCount >= 1. The source reads `wt[0]` and category 0 unconditionally.
- BeagleCPU4State.BeagleCPU4StateImpl.CalcRootLogLikelihoods: the source's `assert(rootPartials)` becomes the requirement that `bufferIndex` names an existing buffer.
- BeagleCPU4State.BeagleCPU4StateImpl.CalcRootLogLikelihoods: the three buffers must be distinct arrays. The source never aliases them.
- The kernels' matrix, state and partials inputs are `const` pointers in the source. They are modelled as sequences, so a kernel's output buffer cannot alias one of its inputs.
- The C++ `int` counters are unbounded integers here. Overflow of `C*P*4` or `l*kMatrixSize` for huge instances is not modelled.
- Each kernel's loop body is a helper method (Category, Pattern, Entry or Cell) that performs the same statements in the same order. The `int w` of a row block is returned by the Entry method. The final `w += 5` of calcStatesStates, whose value is never read again, is kept.
- Tip state codes are required to lie in 0..3. The source indexes with them unchecked. A gap or ambiguity code (4 in other BEAGLE back-ends) would read the padding column. The code handling such codes is not part of this model.
- BeagleCPU4State.CreateImpl: `createInstance` belongs to the base class, which is not part of this model. It is a parameter giving the outcome for the nine arguments: a return code or an exception. Its effect on the new instance's fields (buffer allocation, kCategoryCount, kPatternCount) is not modelled. The returned instance is the freshly constructed one.
- BeagleCPU4State.CreateImpl: the `DEBUGGING_OUTPUT` message and the `delete impl` on the failure paths are not modelled. Dafny has no explicit deallocation, and the message is diagnostic output only.
- The destructor (empty in the source) and `BeagleCPU4StateImplFactory::getName` (a constant string) are not modelled.
- The base class `BeagleCPUImpl`, the buffer bookkeeping that fills `partials`, and the public API that dispatches to these kernels are not part of this model.
