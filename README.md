# SBuilder: a verified model of moonbeam's string builder

The program embeds Lua source text in a C file. It collects that text in a string builder,
`SBuilder`, and hands the finished string to the Lua interpreter. The builder is an owned,
growable byte buffer. `sbuilder_init` creates it with a count of 0 and one zeroed byte of
storage. `sbuilder_appendchar` stores one character and doubles the capacity when the count
outgrows it. `sbuilder_append` appends a NUL-terminated C string one character at a time.
`sbuilder_string` appends a zero byte, shrinks the storage to exactly the count and returns it.
Every failed allocation ends the process with exit status 71.

The model has four modules:

- `CStrings` (cstrings.dfy) defines the C `char` as a byte and `CStr`, the characters of a
  terminated string before its first zero byte.
- `Allocation` (allocation.dfy) models `calloc` and `realloc` as an `Allocator`. It grants any
  request of at most `limit` bytes and refuses larger ones. A reallocation is a fresh array plus
  a copy of the prefix that survives.
- `BuilderSpec` (builder_spec.dfy) gives the builder's value: the appended characters and the
  capacity. It defines what init, append, append-all and finalise do to that value. It also
  holds the lemmas about growth, the capacity invariant, the round trip and the off-by-one in
  the source's append.
- `StringBuilder` (sbuilder.dfy) holds the class `SBuilder`. Its fields are `data: array<Byte>`,
  `count` and `cap`, as in the C struct. Its methods update them in place and are proved against
  `BuilderSpec`. The exit of the process becomes the outcome `Exited(71)`. A caller stops on it,
  so no operation ever continues without a buffer.

The source appends before it checks the capacity. The model appends after the check
(grow-then-write), and says so at `SBuilder.AppendChar`. Both orders compute the same count and
capacity. They differ in where the write lands. When `count == cap`, the source writes past the
block, and `realloc` does not carry that byte over. After such an append the source guarantees
only the old bytes (`BuilderSpec.AsWrittenAppendChar`); see "## Findings".

Finalising might be expected to hand the storage to the caller as a separate owned value.
The code does not do this. `sbuilder_string` returns `sb->data` itself, and the program later
frees it through `sbuilder_free` (template.c:94, 112). The model follows the code:
`SBuilder.Finalize` returns the builder's own array (`r.value == data`).

## Model

| member | source | states |
|---|---|---|
| `CStrings.CStr` | template.c:53-58 | the characters `sbuilder_append` reads. They form the prefix of `text` before its first zero byte, contain no zero byte, and are followed in `text` by one |
| `CStrings.CStrOfTerminated` | template.c:60-63 | a string terminated after `s` reads back as `s`, so the terminator that `sbuilder_string` adds ends the string exactly |
| `Allocation.Allocator.Calloc` | template.c:26 | `calloc` gives `n` zero bytes, or fails exactly when the request is over the limit |
| `Allocation.Allocator.Realloc` | template.c:43 | `realloc` gives `n` bytes whose first `min(n, old size)` bytes are the old block's, or fails exactly when the request is over the limit |
| `BuilderSpec.Init` | template.c:22-26 | a new builder holds nothing, has capacity 1 and satisfies the growth invariant |
| `BuilderSpec.AppendChar` | template.c:37-43 | one append adds `c` after the old contents. The capacity stays the same or doubles. `count <= cap` is preserved, and the old count is a valid index of the storage in force when the write happens |
| `BuilderSpec.AppendChars` | template.c:53-58 | appending characters one at a time adds exactly those characters, in order, and never lowers the capacity |
| `BuilderSpec.Finalize` | template.c:62-76 | finalising gives the contents followed by one zero byte, with capacity equal to that length (no slack) |
| `BuilderSpec.AppendCharKeepsGrowing` | template.c:41-42 | one append keeps the capacity a power of two. The capacity is 1 while the builder is empty and otherwise less than twice the count |
| `BuilderSpec.AppendCharsKeepsGrowing` | template.c:53-58 | any run of appends keeps that growth invariant |
| `BuilderSpec.AppendCharsSnoc` | template.c:54-56 | one more append after a run equals the run extended by that character, which is the step of the loop in `sbuilder_append` |
| `BuilderSpec.AppendEmptyCString` | template.c:54 | appending an empty C string leaves the builder unchanged |
| `BuilderSpec.AppendCharsConcat` | template.c:53-58 | appending `s` and then `t` equals appending `s + t` |
| `BuilderSpec.AppendsFitConcat` | template.c:41-48 | a run of appends gets every doubling it needs granted exactly when its first part does and the rest does after it |
| `BuilderSpec.AppendsFitUnderDoubleCount` | template.c:41-48 | from the growth invariant, no doubling is refused when the allocator grants twice the final count, because every doubling asks for twice a count already reached |
| `BuilderSpec.Pow2Squeeze` | template.c:42 | a power of two in `[n, 2n)` is `n` when `n` is a power of two. This is the arithmetic behind the closed form of the capacity |
| `BuilderSpec.CapacityAfterAppends` | template.c:25-43 | after appending `s` to a fresh builder, the contents are `s` and the capacity is the least power of two that holds them. The capacity is exactly `|s|` when `|s|` is a power of two |
| `BuilderSpec.BuildThenFinalize` | template.c:22-76 | a fresh builder given `s` and finalised holds `s` plus one zero byte, in exactly `|s| + 1` bytes. For `s` empty this is the single byte `0` |
| `BuilderSpec.BuildCStringRoundTrip` | template.c:53-76 | appending a C string and finalising gives its characters plus a zero byte, which reads back as the same C string |
| `BuilderSpec.AsWrittenAppendChar` | template.c:37-43 | the source's own order: the write at line 38 overruns the `cap`-byte block exactly when `count == cap`. The count and capacity equal the corrected append's. Without an overrun the stored bytes are the old contents plus `c`. After an overrun only the old `cap` bytes are guaranteed, so the new character may be lost |
| `BuilderSpec.AsWrittenOverrunsAtPowersOfTwo` | template.c:38-42 | at every power-of-two count (1, 2, 4, ...), with the capacity the growth rule gives after that many appends, the next write in the source's order lands one past the end of the storage |
| `BuilderSpec.AsWrittenOverrunsOnSecondAppend` | template.c:38-41 | the first overrun is the second append to a fresh builder. It writes index 1 of a 1-byte block, after which only the first character is guaranteed to be stored |
| `BuilderSpec.CorrectedNeverOverruns` | template.c:38-43 | with the check ahead of the write, every reachable write index is below the capacity in force at the time |
| `StringBuilder.SBuilder.Init` | template.c:22-34 | `sbuilder_init` gives a fresh builder with count 0, capacity 1 and storage `[0]`, or exit status 71 exactly when the one-byte `calloc` fails |
| `StringBuilder.SBuilder.AppendChar` | template.c:37-50 | `sbuilder_appendchar` (grow-then-write) changes the builder's value as `BuilderSpec.AppendChar` does: `c` is placed at the old count and the earlier bytes survive growth. It exits with 71 exactly when a needed doubling fails, and then leaves the builder as it was |
| `StringBuilder.SBuilder.Append` | template.c:53-58 | `sbuilder_append` equals one `AppendChar` per character of the C string, in order. It exits with 71 exactly when one of the doublings that run needs is refused (`AppendsFit` fails). The builder is then full (`count == cap`, with `2 * cap` over the limit) and holds the old contents plus a proper prefix of those characters |
| `StringBuilder.SBuilder.Finalize` | template.c:62-77 | `sbuilder_string` returns the builder's own storage, holding the old contents and one zero byte. Count is the old count + 1 and cap is count, the storage length. It exits with 71 exactly when the terminator's growth or the shrink fails |
| `StringBuilder.Build` | template.c:88-94 | init, append of a C string, then finalise gives that string's characters plus one zero byte, in exactly that many bytes. It ends with exit status 71 exactly when one of the allocations fails: the first byte, a doubling while appending the characters and the terminator, or the final shrink. It always succeeds when the allocator grants twice the result's length |

## Left out

- `main` (template.c:85-115) is left out: creating the Lua state, the `arg` table and `luaL_dostring` are calls into the Lua library.
- `sbuilder_free` (template.c:80-83) is left out: it only releases memory, which Dafny's heap does not model.
- `fprintf(stderr, ...)` is left out: it is output with no effect on the builder.
- `exit(71)` is the outcome `Exited(71)`, not process termination. Each method returns it, and every caller stops on it at once.
- A failing `malloc` of the struct itself (template.c:23) is not modelled: in Dafny, allocating an object cannot fail. In C the struct's fields are also written before the NULL check at line 28, which is a memory-safety slip and not builder logic.
- The allocator's failures are modelled by a size limit. The real `malloc`/`realloc` can fail for other reasons, and the model does not track memory freed or leaked by `realloc`.
- The bytes of a grown block beyond the old size are uninitialised in C. `Realloc` promises nothing about them, and no contract reads them.
- Overflow of `size_t` in `cap * 2` is not modelled: counts and capacities are unbounded naturals.
- The model does not capture using a builder after `sbuilder_string`, which the program never does.

## Findings

| source | as written | input that shows it | evidently intended | confidence | as-written member | corrected member |
|---|---|---|---|---|---|---|
| template.c:38-43 | `sbuilder_appendchar` stores the character at index `count` before it compares the new count with `cap`. When `count == cap` the store lands one byte past the allocated block, and the growth that follows comes too late. `realloc` then copies only the old `cap` bytes | a fresh builder (`count = 0`, `cap = 1`) given two characters: the second is written to index 1 of a 1-byte block. The same happens after counts 2, 4, 8, ... | check the capacity first, grow, then write. This gives the same count and capacity, keeps every appended character, and keeps every write in bounds | high (not executed) | `BuilderSpec.AsWrittenOverrunsOnSecondAppend` | `StringBuilder.SBuilder.AppendChar` |
