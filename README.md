# Diagonal matrix sum

A diagonal n×n matrix is stored as the array of its n diagonal entries. The
repository's `Diagonals.sum` adds two such matrices entry by entry. It
returns `null` when either operand is `null` or when the two arrays differ in
length. Otherwise it returns a newly allocated array whose entry i is
`A[i] + B[i]`. This project models that operation in `diagonals.dfy`
(module `Diagonals`).

- `Sum` is the method. It takes two nullable arrays, returns a nullable array and fills that array in a `for` loop, as the source does.
- `SumOf` is the same operation on values. An absent array is `None` and an array is the sequence of its entries. `Sum`'s contract ties its result to `SumOf` through `Contents`.
- `Pointwise` builds the entry-wise sum of two sequences of equal length. `PointwiseAt` proves what each entry of that sum is.

## Model

| member | source | states |
|---|---|---|
| Diagonals.Sum | Diagonals.java:3-18 | The result is null exactly when A or B is null or their lengths differ. Otherwise it is a fresh array (so it is never A or B) of length A.Length, with r[i] == A[i] + B[i] for every i. Its contents equal `SumOf` of the inputs' contents. There is no `modifies` clause, so A and B are left unchanged. |
| Diagonals.SumOf | Diagonals.java:4-15 | There is no result exactly when an operand is absent or the lengths differ. Otherwise the result has the common length and every entry is the sum of the corresponding entries. |
| Diagonals.Pointwise | Diagonals.java:12-15 | The entry-wise sum has the same length as each operand. |
| Diagonals.PointwiseAt | Diagonals.java:13-14 | Entry k of the entry-wise sum is a[k] + b[k]. |
| Diagonals.SumCommutes | Diagonals.java:4-15 | Swapping the operands changes neither whether a result is produced nor any of its entries. |
| Diagonals.SumOfEmpty | Diagonals.java:12-17 | Two empty operands give an empty result, not the absent one. |
| Diagonals.SumExample | Diagonals.java:3-18 | The sum of [1, 2] and [3, 4] is [4, 6]. |

## Left out

- Entries are modelled as mathematical reals, not IEEE-754 doubles. Rounding, NaN and infinities are not modelled.
- `Diagonals.exampleMatrix`, `Diagonals.product` and `Diagonals.inverse` are declared in the test suite, but Diagonals.java does not implement them, so they are not modelled.
- `Tridiagonals` (exampleMatrix, isValidTridiagonal, sum, productWithDiagonal, linearSolve) and `ODE.solve` are known only by their signatures in DeclarationTest.java. Tridiagonals.java and ODE.java are not part of this model.
- DeclarationTest.java only uses reflection to check that methods are declared, and sets a 60-second test timeout. It states no behaviour and is not modelled.
