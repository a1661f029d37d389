# dd-dicetron roll history and trimIndent, in Dafny

dd-dicetron is a Discord bot that rolls dice through an external evaluator. This project models two
self-contained parts of its Python side:

- **The roll history** (`History`, `dicetron/lib/history.py`). This is an in-memory dictionary from an
  identity key (author and channel) to a `deque(maxlen=10)` of roll strings, newest first. `add_item`
  pushes to the front of the identity's deque and drops the oldest roll when the deque is full.
  `get_item` indexes the deque with Python's indexing rules. `get_pretty_history` lists the rolls,
  oldest first, each under its index. The model is the class `RollHistory.History`. Its field
  `contents: map<Ident, seq<string>>` is reassigned by `AddItem`. `Valid()` is the invariant that every
  present identity has between 1 and 10 rolls. Identities are an opaque type parameter.
- **`trim_indent`** (`dicetron/lib/util.py`). This is the bot's copy of Kotlin's `trimIndent`, used to
  lay out help texts. It splits the text into lines and drops empty lines at both ends. It measures
  the leading whitespace of the first remaining line, cuts that many characters off every line, and
  joins the lines with `"\n"`. When no line has text it raises `IndexError`. The model is the method
  `Util.TrimIndent`, written with the source's two `while` loops and its `for`/`break` loop. It is proved
  equal to the specification function `Util.TrimIndentSpec`, and the source's promises are lemmas about
  that function.

`Errors.Result` (`Ok(value)` or `IndexError`) stands for the `IndexError` that both parts can raise.

Two details of the code that the model keeps:

- `get_item` accepts negative indices (`-len <= index < 0` counts from the oldest end), not only
  `[0, len)`.
- `get_pretty_history` ends every line, including the last, with `"\n"`.

## Model

| member | source | states |
|---|---|---|
| RollHistory.History.constructor | dicetron/lib/history.py:5-6 | a new history has no identity and satisfies the invariant |
| RollHistory.History.AddItem | dicetron/lib/history.py:8-11 | keeps every log at 1..10 entries; the identity's log becomes the bounded push of the item onto its old log (just `[item]` for a new identity); `get_item(ident, 0)` is now the item and every older entry moved up one index; the key set grows by the identity only, and no other identity's log changes |
| RollHistory.Pushed | dicetron/lib/history.py:10-11 | `appendleft` on a deque with maxlen 10: the length grows by one up to 10; the item is in front, followed by the old entries in order, minus the oldest when the deque was full |
| RollHistory.PushedEvictsOnlyOldest | dicetron/lib/history.py:10-11 | as a multiset, a push below capacity only adds the item; at capacity it also removes exactly the oldest entry |
| RollHistory.AddAllKeepsMostRecent | dicetron/lib/history.py:8-11 | after any sequence of adds to one identity, its log is the last 10 items added, newest first (strict FIFO eviction) |
| RollHistory.History.AddItems | dicetron/lib/history.py:8-11 | successive `add_item` calls for one identity leave its log equal to the fold of pushes over the items, so for an identity that was absent the log is the last 10 items, newest first; the key set grows by that identity only when an item was added, and no other identity's log changes |
| RollHistory.History.GetItem | dicetron/lib/history.py:13-14 | succeeds iff the identity exists and `-len <= index < len`; then it returns the entry at `index` taken modulo `len`, so negative indices count from the oldest end; it reads and does not change the state |
| RollHistory.History.GetPrettyHistory | dicetron/lib/history.py:16-21 | the text is the listing's lines written in order; for a valid history it is empty iff the identity is unknown; the state is not changed |
| RollHistory.PrettyLinesAt | dicetron/lib/history.py:19-20 | line k of the listing carries index `len-1-k` and the entry stored at that index, so the oldest entry comes first with the highest index and the newest comes last with index 0 |
| RollHistory.PrettyLineOfValidLog | dicetron/lib/history.py:19-20 | for a log of at most 10 entries, line k is a space, the digit `len-1-k`, a space, the entry and a newline |
| RollHistory.HistoryLineOfDigit | dicetron/lib/history.py:20 | an index below 10 is right-aligned to width 2 as a space followed by its digit |
| RollHistory.IndexLabelRightAligned | dicetron/lib/history.py:20 | the label is the decimal of the index, padded on the left with spaces to width 2 |
| RollHistory.DecimalRoundTrip | dicetron/lib/history.py:20 | the label's digits read back as the index |
| RollHistory.DecimalDigits | dicetron/lib/history.py:20 | the label's number is `str(i)`: decimal digits only, with a leading `'0'` only for index 0 |
| RollHistory.PrettyHistoryOfThree | dicetron/lib/history.py:16-21 | the log `[C, B, A]` (C newest) is listed as `" 2 A\n 1 B\n 0 C\n"` |
| Util.TrimIndent | dicetron/lib/util.py:2-19 | the result equals the specification `TrimIndentSpec`; it is `IndexError` exactly when every line is empty |
| Util.FirstNonEmpty | dicetron/lib/util.py:4-5 | the index where the first loop stops: a non-empty line with only empty lines before it |
| Util.LastNonEmpty | dicetron/lib/util.py:6-7 | the index where the second loop stops: a non-empty line with only empty lines after it |
| Util.LeadingWhitespace | dicetron/lib/util.py:8-13 | the collected prefix is a prefix of the line, all whitespace, and maximal: it is the whole line or is followed by a non-whitespace character |
| Util.DedentIsSuffix | dicetron/lib/util.py:14 | `line[n:]` is the suffix of the line of length `len - n`, and empty when the line is shorter than n |
| Util.TrimIndentFails | dicetron/lib/util.py:3-7 | the result is `IndexError` iff no line has text; in particular the empty string fails |
| Util.TrimIndentLines | dicetron/lib/util.py:3-19 | on success, splitting the output at `'\n'` gives back exactly the kept lines, the span from the first to the last non-empty input line, each with as many characters cut off as the first kept line has leading whitespace |
| Util.TrimLinesSplit | dicetron/lib/util.py:4-19 | the same on the list of lines: for newline-free lines, the joined result splits back into the dedented span from the first to the last non-empty line |
| Util.TrimLinesOfSpan | dicetron/lib/util.py:4-19 | when `lo` and `hi - 1` are non-empty lines with only empty lines outside them, the result is the join of `lines[lo:hi]` cut by the leading whitespace of `lines[lo]`, which is what the loops compute |
| Util.TrimIndentFirstLine | dicetron/lib/util.py:8-14 | if the first kept line has a non-whitespace character, the output's first line starts with one |
| Util.TrimIndentCutsLessIndentedLines | dicetron/lib/util.py:8-14 | later lines are cut by the first line's indentation even when that removes their text: `"  a\nb"` gives `"a\n"` |
| Util.SplitLinesJoin | dicetron/lib/util.py:3 | the lines hold no `'\n'`; joining them with `"\n"`, plus the final newline that `splitlines` drops, gives the input back |
| Util.JoinSplit | dicetron/lib/util.py:19 | joining the `'\n'`-separated pieces of a text gives the text back |
| Util.SplitJoin | dicetron/lib/util.py:19 | splitting a `"\n"`-join of newline-free lines gives the same lines back, one for one |

## Left out

- Util.SplitLines: `str.splitlines` also ends lines at `\r`, `\r\n`, `\v`, `\f`, `\x1c`-`\x1e`, `\x85`, `\u2028` and `\u2029`. The model ends lines only at `'\n'`. The other separators stay inside lines, where `IsSpace` still counts them as whitespace.
- Util.IsSpace lists the characters for which Python's `str.isspace` is true. Python strings are sequences of code points, while Dafny's `char` excludes the surrogate range; surrogates are not whitespace, so this changes nothing.
- Concurrency: the source has no locking. The model is sequential.
- The identity key `b"%x%x" % (author.id, channel.id)` (`dicetron/lib/commands.py:104`) is built by the caller. The model treats identities as opaque values with equality.
- The dice evaluator (`dicetron/lib/dice.py`, `dicetron/src/dice.js`) runs in a subprocess and its JSON output is parsed. This is foreign-process I/O.
- Prefix and module persistence (`dicetron/lib/prefixes.py`, `dicetron/lib/modules.py`, `dicetron/lib/data.py`) is file and environment I/O.
- The command handlers (`dicetron/lib/commands.py`) and the HTTP and Discord glue (`dicetron/src/app.js`, `dicetron/src/commands.js`) only format replies around these calls and platform objects.
