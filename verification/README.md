# bloomPy in Dafny

A model of the in-memory engine of bloomPy, a Bloom filter written in Python:

- `Bloom` (bloompy.py) owns a byte array of m/8 bytes. `insert` sets bit `h % 8` of
  byte `h // 8` for each of a key's k hash positions. `query` answers whether all of
  those bits are set.
- `BlockedBloom` (blocked_bf.py) is the cache-friendly layout of Putze et al. It holds b
  independent `Bloom` blocks and k + 1 seeds. The last seed routes each key to one
  block, and `insert`/`query` act on that block only.

Files, one module each:

- `hashing.dfy` (`Hashing`): keys, the abstract keyed digest, a key's k bit positions and its block index.
- `byte_bits.dfy` (`ByteBits`): a bit set stored in bytes, and the facts about setting bits.
- `sizing.dfy` (`Sizing`): rounding a bit budget up to whole bytes or whole 512-bit blocks.
- `bloompy.dfy` (`BloomPy`): the basic filter. It holds the specification on byte values and the `Bloom` class over an `array<bv8>`.
- `blocked_bf.dfy` (`BlockedBf`): the blocked filter. It holds the specification on lists of blocks and the `BlockedBloom` class.

Both classes are proved against pure functions. `Bloom.Insert` leaves the array equal to
`InsertKey` of the old array. `Bloom.Query` returns `Member` of the array. The blocked
class does the same with `BlockedInsert` and `BlockedMember`. The lemmas beside those
functions prove the guarantees: no false negatives, insert only ORs bits in, insert is
idempotent, untouched bytes and blocks stay the same, and routing stays in range.

The digest is a parameter, `Digest = (Key, nat) -> nat`, stored in each filter. The i-th
position of a key is its digest under seed i, modulo the filter's bit count. A key's
block is its digest under the routing seed, modulo b. Nothing is assumed about the
digest, so every property holds for any hash function.

Where bloomPy's code departs from a textbook seeded Bloom filter, the model follows the code:

- The blocks of a `BlockedBloom` have no seeds of their own. They are `Bloom(k, nBytes)`
  objects that hash with the basic filter's own scheme. Of the k + 1 seeds, only the
  last one (routing) is used; the first k are stored and never read.
- The blocked `build` does not reselect k per block. It gives every block `max(1, k - 1)`
  hashes, where k is the hash count chosen for the whole budget.
- The code raises no `InvalidParameter` error of its own. Bad inputs still fail inside
  the float arithmetic: `log(p)` raises `ValueError` for p ≤ 0, n = 0 divides by zero
  at bloompy.py:29, and p = 1 divides by zero at bloompy.py:31. The model starts after
  that arithmetic: `requires x > 0.0` on `BitCount`, `Bloom.Build` and `BuildLayout`
  excludes these failing paths, because a positive bit budget x is what a valid n and p give.

Some draft defects are modelled as their evident intent:

- `insert` and `query` lack `self`.
- `_khashes` returns nothing, and `hashlib` is not imported.
- `BlockedBloom` calls `Bloom(k, nBytes)`, but `Bloom.__init__` takes `(n, p)`.
  The model's `Bloom` constructor takes `(k, nBytes)`, which is what `BlockedBloom` needs.
- bloompy.py:35 and bloompy.py:39 call `khashes(...)`, a name that is not defined; the
  method is `_khashes` (bloompy.py:14). The model's `KeyPositions` is that call.
- `_hash` is declared without `self` and with three parameters (bloompy.py:10), but
  blocked_bf.py:30 calls `self._hash(s, self.seeds[-1])` with two. The model's `Digest`
  takes a key and a seed.
- `_hash` returns the `bytes` of `.digest()`, so `% b` at blocked_bf.py:30 would be bytes
  formatting, not reduction modulo b. The model reads the digest as a natural number
  (as `int.from_bytes` would give) and `Route` reduces it modulo b.

## Model

| member | source | states |
|---|---|---|
| Hashing.Positions | bloompy.py:14-22 | a key has exactly k positions, each a valid bit index below m |
| Hashing.Route | blocked_bf.py:27-30 | the routing index of any key lies in [0, b) for b ≥ 1 |
| ByteBits.SetAll | bloompy.py:34-36 | setting a key's positions keeps the array length |
| ByteBits.SetAllCovers | bloompy.py:36 | setting positions only ORs bits in: every byte keeps all its old bits |
| ByteBits.SetAllSetsEach | bloompy.py:34-36 | after the loop, bit `h % 8` of byte `h // 8` is set for every position h |
| ByteBits.SetAllUntouched | bloompy.py:35-36 | a byte that no position falls in is unchanged |
| ByteBits.SetAllNoop | bloompy.py:36 | setting bits that are all set already leaves the array equal |
| ByteBits.SetAllIdempotent | bloompy.py:34-36 | setting the same positions twice equals setting them once |
| ByteBits.CoversKeepsBit | bloompy.py:36 | a bit set in an array stays set in any array that covers it |
| Sizing.RoundUp | blocked_bf.py:20 | the rounded budget is the least positive multiple of the unit that is ≥ the budget |
| BloomPy.BitCount | bloompy.py:27-28 | m is positive, a multiple of 8, at least the budget and less than budget + 8 |
| BloomPy.KeyPositions | bloompy.py:35 | the positions are taken over `len(arr) << 3` bits, so each `h // 8` indexes the array |
| BloomPy.InsertKey | bloompy.py:34-36 | inserting a key keeps the array length |
| BloomPy.InsertKeys | bloompy.py:34-36 | inserting a list of keys keeps the array length |
| BloomPy.MemberAfterInsert | bloompy.py:34-39 | after `insert(s)`, `query(s)` answers yes |
| BloomPy.InsertCovers | bloompy.py:36 | every bit set before an insert is still set after it |
| BloomPy.InsertUntouched | bloompy.py:35-36 | bytes outside the key's `h // 8` indices are unchanged by insert |
| BloomPy.InsertIdempotent | bloompy.py:34-36 | inserting a key twice yields the same array as inserting it once |
| BloomPy.MemberStable | bloompy.py:34-39 | a yes answer stays yes after inserting any other key |
| BloomPy.MemberStableKeys | bloompy.py:34-39 | a yes answer stays yes after any sequence of inserts |
| BloomPy.NoFalseNegatives | bloompy.py:34-39 | after inserting a list of keys into any array, every inserted key is reported present |
| BloomPy.MemberImpliesQueryAsWritten | bloompy.py:39 | the query as written (logical `and`) answers yes whenever the intended bit test does, so it has no false negatives either |
| BloomPy.QueryAsWrittenFalsePositive | bloompy.py:39 | the query as written answers yes for a byte 0x02 and position 0, where bit 0 is clear |
| BloomPy.Bloom.constructor | bloompy.py:25-32 | a fresh array of nBytes zero bytes, never resized (the field is constant) |
| BloomPy.Bloom.Build | bloompy.py:25-32 | `__init__`'s allocation: a fresh zeroed array of `m // 8` bytes where m = BitCount(x), so the bit count `len(arr) << 3` equals m, a multiple of 8 |
| BloomPy.Bloom.Insert | bloompy.py:34-36 | the array becomes `InsertKey` of its old contents; it writes only its own array, and every index `h // 8` is in bounds |
| BloomPy.Bloom.Query | bloompy.py:38-39 | returns true iff every position's bit is set; it has no modifies clause, so it changes nothing |
| BlockedBf.BlockedInsert | blocked_bf.py:32-34 | an insert keeps the block count and the size of every block |
| BlockedBf.BlockedInsertKeys | blocked_bf.py:32-34 | any sequence of inserts keeps the block count |
| BlockedBf.BlockedInsertOnlyRouted | blocked_bf.py:32-34 | every block other than `arrs[_hash1(s, b)]` is unchanged, and the routed block only gains bits |
| BlockedBf.BlockedMemberAfterInsert | blocked_bf.py:32-38 | insert and query route a key to the same block, so after `insert(s)`, `query(s)` answers yes |
| BlockedBf.BlockedMemberStable | blocked_bf.py:32-38 | a yes answer stays yes after inserting a key into the same block or another |
| BlockedBf.BlockedMemberStableKeys | blocked_bf.py:32-38 | a yes answer stays yes after any sequence of inserts |
| BlockedBf.BlockedNoFalseNegatives | blocked_bf.py:32-38 | after inserting a list of keys, every inserted key is reported present |
| BlockedBf.BlockedInsertIdempotent | blocked_bf.py:32-34 | inserting a key twice yields the same blocks as inserting it once |
| BlockedBf.BuildLayout | blocked_bf.py:17-25 | blocks of 64 bytes (512 bits); `max(1, k - 1)` ≥ 1 hashes per block; `m // 512` ≥ 1 blocks, where m is the budget rounded up to a multiple of 512 |
| BlockedBf.BlockedBloom.constructor | blocked_bf.py:10-14 | b fresh, distinct, zeroed blocks with k hashes each; k + 1 seeds, each `1 + getrandbits(127)` |
| BlockedBf.BlockedBloom.Build | blocked_bf.py:17-25 | a valid filter with the block count, block size and hash count of BuildLayout |
| BlockedBf.BlockedBloom.Insert | blocked_bf.py:32-34 | may modify only the routed block's array; the blocks become `BlockedInsert` of the old blocks, with routing by the last seed |
| BlockedBf.BlockedBloom.Query | blocked_bf.py:36-38 | returns the routed block's answer, `BlockedMember`; it changes nothing |

## Left out

- Parameter derivation with `log`, `exp`, `floor` and `ceil` on floats (bloompy.py:27-31, blocked_bf.py:20-23) is floating-point numerics. The bit budget `-n ln p / (ln 2)^2` enters `BitCount`, `Bloom.Build` and `BuildLayout` as an arbitrary positive real. The hash count chosen by the false-positive formula enters as a parameter (`k`).
- The MD5 digest (`hashlib.md5`, bloompy.py:10-12) is a foreign call, and the multi-hash derivation in `_khashes` (bloompy.py:14-22) is unfinished. Both are replaced by the `Digest` parameter. The i-th position uses seed i.
- Seed randomness (`random.getrandbits`, blocked_bf.py:14) becomes a parameter `draw: nat -> nat`, the stream of random numbers. It is reduced to 127 bits as the source does.
- The command-line driver, file reading, `pickle` persistence and `query:Y|N` printing (blocked_bf.py:40-72, bloompy.py:41-42) are I/O.
- test.py is a randomized benchmark of timing and observed false-positive rates. Probabilistic rates are outside the model.
- `BlockedBloom` subclasses `Bloom` in the source only to inherit `_hash`. The model uses composition: it holds a list of `Bloom` objects and shares the `Digest`.
- BlockedBf.BlockedBloom.constructor: requires b ≥ 1 and nBytes ≥ 1. With zero blocks or empty blocks the source builds the object, then divides by zero on the first insert or query. `build` always gives at least one block of 64 bytes.
- BloomPy.Bloom.constructor: requires nBytes ≥ 1, for the same reason. The source's `__init__` gives m ≥ 8 for every n ≥ 1 and p in (0, 1).

## Findings

| source | as written | input that shows it | evidently intended | confidence | as-written member | corrected member |
|---|---|---|---|---|---|---|
| bloompy.py:39 | `self.arr[h // 8] and 1 << h % 8` uses logical `and`. It is truthy whenever the byte is non-zero, so `query` only checks that each touched byte holds some set bit. | A one-byte filter holding 0x02 and a key whose only position is 0: the query answers yes, although bit 0 is clear. | The bitwise test `self.arr[h // 8] & 1 << h % 8`, which checks bit `h % 8` itself. | high; not executed | BloomPy.QueryAsWrittenFalsePositive | BloomPy.Bloom.Query |
