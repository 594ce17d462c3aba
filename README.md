# path_trav in Dafny

A model of `is_path_trav` from the `path_trav` crate: given a base directory
and a candidate path, decide whether the candidate resolves to a location
outside the base (a path traversal). The function checks that the base and
then the candidate exist, failing with a fixed message for the first one
missing. It canonicalizes both and converts them to text. It cuts the
canonical candidate to the length of the canonical base and reports a
traversal exactly when the cut differs from the base.

The filesystem is an oracle (`PathTrav.FileSystem`): a predicate saying which
paths exist and a function giving each path's canonical text. The decision
logic on the canonical strings is modelled exactly, including the two units
it mixes. `String::len` counts UTF-8 bytes (`RustStr.Utf8Len`), while
`Substring::substring` from the `substring` crate cuts by character index and
clamps an end past the string's end (`RustStr.Substring`).

What is proved about the code as written:

- The base check comes first, then the candidate check, each with its own message.
- Only the canonical texts decide the answer.
- A candidate that resolves to the base is safe, and so is a path checked against itself.
- A candidate with fewer characters than the base is always a traversal.
- For an ASCII canonical base, the answer is `true` exactly when the base is not a string prefix of the candidate. So a sibling such as `/home/user/data-evil` is judged inside `/home/user/data`.
- For a canonical base with any non-ASCII character, the answer is `false` only when the candidate resolves to the base itself. Every genuine descendant is flagged.

Module `Corrected` holds definitions that fix both defects, with their
intended properties proved.

Files: `rust_str.dfy` (module `RustStr`), `path_trav.dfy` (module
`PathTrav`), `corrected.dfy` (module `Corrected`).

Points where the code behaves differently from what a reader might expect:

- `is_path_trav` returns two fixed `&'static str` messages, while tests/tests.rs:41 expects `ErrorKind::NotFound`.
- A failed `canonicalize` or `to_str` after the existence checks panics at an `unwrap` (src/lib.rs:45-52); it is not an error result.
- The cut at src/lib.rs:53 mixes a byte length with a character index.
- A sibling such as `data-evil` passes the raw prefix test (`PathTrav.SiblingPrefixIsSafe`).

## Model

| member | source | states |
|---|---|---|
| `RustStr.Utf8Width` | src/lib.rs:53 | a character takes 1 to 4 UTF-8 bytes, and exactly 1 when it is ASCII |
| `RustStr.Utf8Len` | src/lib.rs:53 | `String::len` is between the character count and four times it, and equals the character count exactly when every character is ASCII |
| `RustStr.Utf8LenAppend` | src/lib.rs:53 | the byte length of a concatenation is the sum of the byte lengths |
| `RustStr.Substring` | src/lib.rs:53 | `substring(start, end)` is empty when `end <= start`; otherwise it has `min(end, len) - min(start, len)` characters, and character `i` of it is character `start + i` of the input |
| `RustStr.SubstringFromStart` | src/lib.rs:53 | a substring from index 0 is a prefix of the string; it is the whole string when the end index reaches past the end |
| `PathTrav.Escapes` | src/lib.rs:53-55 | with an ASCII canonical base, traversal iff the base is not a prefix of the candidate; with a non-ASCII base, traversal iff the candidate differs from the base |
| `PathTrav.IsPathTrav` | src/lib.rs:36-56 | missing base gives `Err("Base path doesn't exist")` whatever the candidate; existing base with missing candidate gives `Err("Relative path doesn't exist")`; `Ok` iff both exist; the `Ok` value obeys the two characterisations of `Escapes` on the canonical forms |
| `PathTrav.CanonicalFormsDecide` | src/lib.rs:45-55 | when both paths exist, the result is `Ok`, and two calls whose paths share canonical forms give the same answer |
| `PathTrav.SameLocationIsSafe` | src/lib.rs:53-55 | a candidate with the same canonical form as the base gives `Ok(false)` |
| `PathTrav.SelfIsSafe` | src/lib.rs:36-56 | `is_path_trav(p, p)` is `Ok(false)` for every existing, resolvable `p` |
| `PathTrav.ShorterCandidateIsTraversal` | src/lib.rs:53-55 | a canonical candidate with fewer characters than the canonical base gives `Ok(true)` |
| `PathTrav.AsciiPrefixIsSafe` | src/lib.rs:53-55 | with an ASCII canonical base that is a prefix of the canonical candidate, the result is `Ok(false)` |
| `PathTrav.NonAsciiDescendantFlagged` | src/lib.rs:53-55 | with a non-ASCII canonical base, a candidate that strictly extends it gives `Ok(true)` |
| `PathTrav.NonAsciiExample` | src/lib.rs:53-55 | `/tmp/é` is 7 bytes long (5 ASCII bytes plus 2 for `é`, by `Utf8LenAppend`), and `/tmp/é/x` is reported as escaping it |
| `PathTrav.SiblingPrefixIsSafe` | src/lib.rs:53-55 | `/home/user/data-evil/x` is reported as inside `/home/user/data` |
| `PathTrav.TestScenarios` | tests/tests.rs:4-42 | on a filesystem with the working directory at `/home/user/path_trav`: `/etc/passwd` is a traversal, `./tests/tests.rs` is not, and a missing candidate is the candidate error |
| `PathTrav.MissingBaseReportedFirst` | src/lib.rs:37-43 | on the same filesystem, a missing base gives the base error whether the candidate exists or not |
| `Corrected.EscapesByChars` | src/lib.rs:53-55 | measuring the base in characters makes the check "the base is not a prefix of the candidate" for every string |
| `Corrected.BelowIff` | src/lib.rs:53-55 | a path is at or below a directory iff the directory is a prefix of it and the prefix ends at the end of the path, at a separator, or the directory ends with a separator |
| `Corrected.EscapesBySegment` | src/lib.rs:53-55 | the segment-aware check reports a traversal iff the candidate is neither the base nor `Join(base, t)` for some `t` |
| `Corrected.IsPathTravCorrected` | src/lib.rs:36-56 | same errors in the same order as `is_path_trav`; `Ok(true)` iff the canonical candidate is not at or below the canonical base |
| `Corrected.NonAsciiDescendantAccepted` | src/lib.rs:53-55 | the corrected check accepts `/tmp/é/x` under `/tmp/é` |
| `Corrected.SiblingPrefixRejected` | src/lib.rs:53-55 | the corrected check reports `/home/user/data-evil/x` as escaping `/home/user/data` |
| `Corrected.CorrectedIsStricterForAscii` | src/lib.rs:53-55 | for an ASCII base, whatever the corrected check accepts, the original also accepts |

## Left out

- `Path::exists` and `Path::canonicalize` are filesystem I/O (symlink resolution, permissions). They are oracle fields of `FileSystem`, not behaviour. The time gap between the checks and any later use is not modelled.
- The `unwrap` panics at src/lib.rs:45-52 are not modelled. They fire when canonicalization fails after the existence check, or when the canonical path is not valid UTF-8. `IsPathTrav` instead requires (`Resolves`) that both paths canonicalize to text whenever both exist.
- The internals of the `substring` crate are not modelled. `RustStr.Substring` states only its slicing semantics on characters.
- The trait-method form `base.is_path_trav(&rel)` and the `ErrorKind::NotFound` error that tests/tests.rs:9 and tests/tests.rs:41 use are not in src/lib.rs. `PathTrav.TestScenarios` checks the scenarios against the free function and its string errors.
- The doc examples at src/lib.rs:23-34 depend on the host filesystem and only unwrap the result.
- Paths are opaque values (`Path = string`) that only the oracle interprets. Non-UTF-8 OS paths reach the model only as a failed canonicalization.

## Findings

| source | as written | input that shows it | evidently intended | confidence | as-written member | corrected member |
|---|---|---|---|---|---|---|
| src/lib.rs:53 | the prefix length is `String::len()` (UTF-8 bytes), but `substring` cuts by character index | base `/tmp/é`, candidate `/tmp/é/x`: the cut is `/tmp/é/`, so the result is `Ok(true)` for a true descendant | measure the base in the unit the cut uses, so that a descendant of any base is accepted | high, not executed | `PathTrav.NonAsciiDescendantFlagged` | `Corrected.EscapesByChars` |
| src/lib.rs:53-55 | containment is a raw string-prefix test | base `/home/user/data`, candidate `/home/user/data-evil/x`: the result is `Ok(false)` | accept only the base itself or a path below it, with the match ending at a separator | medium (the behaviour may be a known limitation), not executed | `PathTrav.SiblingPrefixIsSafe` | `Corrected.EscapesBySegment` |
