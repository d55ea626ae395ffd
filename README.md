# audiolabel, modelled in Dafny

This project models the core of `audiolabel.py`, a library for time-aligned
annotations of speech recordings. A **label** carries a text, a start time
`t1`, an optional end time `t2` and optional application data. A **tier**
keeps its labels sorted by `t1`, together with a cache of the start times
(`_time`). That cache may hold pre-allocated empty (NaN) slots. A point tier
holds labels at instants and an interval tier holds labels over spans. A
**label manager** holds an ordered list of tiers. It reads them from Praat
TextGrid files (short and long text formats), ELAN `.eaf` documents, ESPS
and Wavesurfer label files and delimited tables. It writes them back as
Praat text.

How the model is built:

- `Labels.Label` and `Tiers.TierValue` are values. `Tiers.Tier` and
  `Manager.LabelManager` are classes whose methods update their fields in
  place, as the Python objects do. Each method is proved against a function
  on values (`Tier.Value()`, `LabelManager.Values()`).
- A file is the sequence of its decoded lines as `readline` returns them:
  each line keeps its `"\n"`, and reading past the end gives `""`. The
  readers are loops over those lines. Each reader is a method that builds a
  fresh manager and is proved equal to a reading function (`ReadShort`,
  `ReadLong`, `ReadEaf`, `ReadEsps`, `ReadWavesurfer`, `ReadTable`).
- `float(text)` is a parameter `FloatParser` (text to optional real).
  `"{:1.20f}".format(x)` is a parameter `FloatFormatter` (digits and
  value to text). The round-trip theorems assume that the parser reads back
  what the formatter writes.
- The regular expressions of the Praat long reader and the ESPS reader are
  written out as matchers over strings (module `Patterns`).
- The XML tree that `read_eaf` walks is replaced by records: `Eaf`,
  `EafTier` and `Annotation`.
- A NaN slot of the time cache is `Unfilled`, and the default end
  `float('inf')` is `Unbounded`.
- Where the Python loops forever, the model returns the error `Diverges`.
  This happens in the ELAN tier sort when a parent is missing or the
  parents form a cycle, and when following a cycle of `REF_ANNOTATION`s.

The code is written for Python 2, and the model follows it. Four places
depend on that:

- `dict.keys()` returns a list, and `read_eaf` removes entries from that
  list while iterating over it. This skips the entry after each removed
  one (`Elan.SkippedTierScenario`).
- `raise RuntimeError, "..."` is Python 2 syntax.
- The ESPS, Wavesurfer and table readers work on undecoded byte strings, so
  `strip()` and `split()` remove ASCII whitespace only. The Praat readers
  decode each line with the guessed codec first and strip it as Unicode
  text.
- The writers format tier names and label texts into byte-string
  templates. For a unicode argument, `str.format` encodes it as ASCII, so a
  non-ASCII name or text read by a Praat reader makes the writer raise
  UnicodeEncodeError. The model writes any text (see "## Left out").

Where the code and its design notes disagree, the model follows the code:

- `IntervalTier.add` compares the new label's `t2` with the tier's end but
  sets the end to the label's `t1` (`Tiers.ExtendedEnd`). So an interval
  tier's end need not cover its last label.
- `read_esps` builds point tiers. Each label's `t1` is the line's time and
  its application data is the colour (`Esps.TwoEntryScenario`). It does not
  build interval labels running from the previous time.
- `read_esps` splits the fields on whitespace when no separator is given
  or found. There is no default separator.

## Model

| member | source | states |
|---|---|---|
| Labels.MakeLabel | audiolabel.py:54-70 | a label is made exactly when `t1` is given; otherwise the error is the label time error; text, times and application data are kept |
| Labels.Duration | audiolabel.py:105-112 | a duration exists exactly when `t2` does, and `t1` plus it is `t2` |
| Labels.Center | audiolabel.py:114-121 | a point label's centre is `t1`; an interval's centre is equidistant from both ends and lies between them |
| Labels.ScaleBy | audiolabel.py:87-89 | both times are multiplied, text and data kept, factor 1 changes nothing |
| Labels.ScaleByMeasures | audiolabel.py:87-89 | scaling scales the centre and the duration by the same factor |
| Labels.ShiftBy | audiolabel.py:91-93 | both times move by the offset; duration is kept, the centre moves by the offset, offset 0 changes nothing |
| Labels.ScaleThenShift | audiolabel.py:87-93 | scaling then shifting equals shifting then scaling exactly when offset is 0 or factor is 1 |
| Tiers.EmptyTier | audiolabel.py:127-139 | a new tier is consistent, has no labels and `numlabels` empty time slots |
| Tiers.Bisect | audiolabel.py:168 | the binary search finds the boundary between slots before `x` and the rest |
| Tiers.SearchSorted | audiolabel.py:168 | `np.searchsorted`: every slot before the result precedes `x`, the one at it does not; empty (NaN) slots never precede |
| Tiers.SearchSortedLowerBound | audiolabel.py:168 | on a sorted consistent tier the insertion point separates labels starting before `x` from those starting at or after it |
| Tiers.ExtendedEnd | audiolabel.py:354-429 | a point tier's end becomes the label's `t1` when unbounded or exceeded by `t1` (lines 354-358); an interval tier's end becomes the label's `t1` when unbounded or exceeded by `t2` (lines 425-429); otherwise it stays |
| Tiers.AddedConsistent | audiolabel.py:166-173 | adding keeps the label cache consistent (an empty slot is filled, otherwise a slot is inserted), adds exactly that label, and keeps kind, name and start |
| Tiers.AddedSorted | audiolabel.py:166-173 | the label is inserted after all labels with smaller `t1` and before the rest, so a sorted tier stays sorted |
| Tiers.AddAllSorted | audiolabel.py:166-173 | any sequence of additions keeps the tier sorted and holds exactly the old labels plus the added ones |
| Tiers.Discarded | audiolabel.py:175-180 | removing fails with ValueError exactly when the label is absent; kind, name, start and end are kept |
| Tiers.DiscardedConsistent | audiolabel.py:175-180 | removal keeps the cache consistent and the tier sorted and removes one occurrence of the label |
| Tiers.Scaled | audiolabel.py:280-284 | every label is scaled in place, nothing else changes |
| Tiers.ScaledConsistent | audiolabel.py:280-284 | scaling labels and cache together keeps them consistent |
| Tiers.ScaledSorted | audiolabel.py:280-284 | a non-negative factor keeps the tier sorted |
| Tiers.ScaledNegativeReverses | audiolabel.py:280-284 | a negative factor reverses the order of labels with different starts |
| Tiers.Shifted | audiolabel.py:286-290 | every label is shifted in place, nothing else changes |
| Tiers.ShiftedConsistent | audiolabel.py:286-290 | shifting keeps the cache consistent and the tier sorted |
| Tiers.GetItem | audiolabel.py:194-196 | list indexing: negative keys count from the end, an IndexError outside `-n..n-1` |
| Tiers.Next | audiolabel.py:207-214 | a ValueError when the label is absent; else the label `skip+1` places later, or none past the end |
| Tiers.Prev | audiolabel.py:198-205 | a ValueError when the label is absent; else the label `skip+1` places earlier, wrapping to the end of the list for negative positions, none below `-n` |
| Tiers.ArgMin | audiolabel.py:220 | `argmin` of the distances: the first empty (NaN) slot if any, else the first slot nearest to `t` |
| Tiers.LastAtOrBefore | audiolabel.py:471-472 | the last slot at or before `t`, or none |
| Tiers.LabelAt | audiolabel.py:216-474 | a point tier (lines 216-222) gives the first closest label (ValueError on an empty cache, IndexError while the cache has an empty slot); an interval tier (lines 466-474) gives the last label starting at or before `t`, IndexError when there is none; other methods give none |
| Tiers.TSlice | audiolabel.py:249-465 | a point tier keeps the labels whose `t1` lies in the window (lines 249-278); an interval tier keeps the labels that overlap it, `t2` against the left end and `t1` against the right (lines 433-465); each end inclusive as asked, tolerances added; with `t2` the labels in tier order, without it the single match, an empty list for none and IndexError for several |
| Tiers.TSliceMembers | audiolabel.py:249-465 | a label is in a ranged slice exactly when it is in the tier and inside the window: by `t1` for a point tier, by overlap for an interval tier |
| Tiers.Search | audiolabel.py:224-246 | without a window, exactly the labels whose text matches, in tier order and each as often as in the tier; with a window, the same filter over the slice, and an error when the slice is a single label |
| Tiers.ScenarioBuilt | test/test_read.py:13-16 | adding three intervals to a new tier gives them in order with the cache filled |
| Tiers.ScenarioLookups | test/test_read.py:17-26 | `label_at(2.5)` is the second label, `[0]`/`[-1]` the first and last, next/prev with and without skip as asserted |
| Tiers.PointLabelAtScenario | audiolabel.py:216-222 | on a point tier the closest label wins, and a method other than 'closest' gives none |
| Tiers.Tier.constructor | audiolabel.py:127-139 | the new tier is valid and equals the empty tier value |
| Tiers.Tier.Add | audiolabel.py:166-173 | the tier becomes `Added(old, label)`, validity kept |
| Tiers.Tier.Discard | audiolabel.py:175-180 | an absent label gives ValueError and changes nothing; otherwise the tier becomes `Discarded(old, label)` |
| Tiers.Tier.ScaleBy | audiolabel.py:280-284 | the tier becomes `Scaled(old, factor)` |
| Tiers.Tier.ShiftBy | audiolabel.py:286-290 | the tier becomes `Shifted(old, offset)` |
| Manager.Names | audiolabel.py:501-504 | one name per tier, in order |
| Manager.DocStart | audiolabel.py:844-846 | the least tier start, ValueError with no tiers |
| Manager.DocEnd | audiolabel.py:848-850 | the greatest tier end (unbounded above all), ValueError with no tiers |
| Manager.LabelsAt | audiolabel.py:638-641 | one `label_at` result per tier, or the first tier's error |
| Manager.Locate | audiolabel.py:604-613 | an index (negative from the end) or the first tier with that name; IndexError otherwise |
| Manager.InsertPosition | audiolabel.py:573-578 | `append` without an index, Python `insert` clamping otherwise |
| Manager.RemovalIndex | audiolabel.py:580-586 | `list.remove` finds the first tier that compares equal, and tiers compare as sets of labels |
| Manager.RemovalIndexFindsMember | audiolabel.py:580-586 | a tier in the list is always found, at or before its own position |
| Manager.RemovalIndexConfusesEmptyTiers | audiolabel.py:580-586 | removing the second of two empty tiers removes the first |
| Manager.CastLabel | audiolabel.py:614-635 | a cast to points keeps `t1` (or takes `t2` for 'left') and drops `t2`; a cast to intervals sets `t2` to `t1` for 'left' |
| Manager.CastLabels | audiolabel.py:614-635 | every label is cast, in order |
| Manager.CastSorted | audiolabel.py:614-635 | the cast tier is consistent, sorted, of the target kind and name, and holds exactly the cast labels |
| Manager.LabelManager.constructor | audiolabel.py:479-482 | a new manager holds no tiers |
| Manager.LabelManager.Add | audiolabel.py:573-578 | the tier is inserted at the position `insert` or `append` uses |
| Manager.LabelManager.AddLabelAt | audiolabel.py:166-173 | only the `k`-th tier changes, by `Added` |
| Manager.LabelManager.Find | audiolabel.py:594-613 | the tier at the located position, IndexError when none |
| Manager.LabelManager.Discard | audiolabel.py:580-586 | a missing name or index gives IndexError, a tier not found gives ValueError, else the first equal tier is removed |
| Manager.LabelManager.GetTier | audiolabel.py:594-636 | IndexError when not found; the tier itself without a cast or when it already has that kind; else a fresh tier equal to the cast |
| Manager.LabelManager.ScaleBy | audiolabel.py:660-663 | each tier is scaled once per occurrence in the list |
| Manager.LabelManager.ShiftBy | audiolabel.py:665-668 | each tier is shifted once per occurrence in the list |
| Manager.CastCopy | audiolabel.py:614-635 | the cast copy is fresh, valid and equal to the cast value |
| Manager.ScaleOnceWhenDistinct | audiolabel.py:660-663 | in a list without repeated tiers each tier is scaled exactly once |
| Praat.GuessEncoding | audiolabel.py:670-681 | a codec other than ASCII is chosen only when its byte-order mark starts the line; ASCII exactly when no mark does |
| Praat.GuessEncodingOfBom | audiolabel.py:670-681 | a line starting with a codec's mark is read in that codec |
| Praat.FloatExtent | audiolabel.py:130-131 | 'inf' text gives an unbounded end, other text what `float` gives |
| Praat.ChooseFormat | audiolabel.py:683-700 | long exactly when the fourth line starts `xmin = ` and a digit, short when it starts with a digit otherwise, else a parse error |
| Praat.ShortTierHeader | audiolabel.py:730-739 | a tier header is read from its name, start, end and count lines, ValueError on bad text |
| Praat.ShortLabel | audiolabel.py:742-752 | a label is read from its time(s) and text lines, ValueError on bad text |
| Praat.ShortNext | audiolabel.py:720-754 | each step of the reading loop moves forward; it ends at the end of the file with the pending tier added |
| Praat.StartShortTier | audiolabel.py:728-739 | the pending tier is added and a fresh one started, as one loop step |
| Praat.AddShortLabel | audiolabel.py:741-753 | a label is added to the current tier, as one loop step |
| Praat.ShortNextLabel | audiolabel.py:741-753 | a line that is neither blank nor a class line is a label of the current tier, AttributeError when there is none |
| Praat.ShortStep | audiolabel.py:721-753 | one pass of the loop equals one `ShortNext` step |
| Praat.ReadPraatShort | audiolabel.py:702-754 | the manager read equals `ReadShort` of the lines, or the same error |
| PraatLong.SkipHeader | audiolabel.py:792-798 | skips to the first `item [n]:` line; an error at the end of the file |
| PraatLong.LongMetadata | audiolabel.py:758-776 | AttributeError exactly when one of the class, name, `xmin`, `xmax` and size patterns finds nothing; otherwise the tier is an interval tier exactly for the class `IntervalTier`, its name is the name group, and its start, end and count are the converted `xmin`, `xmax` and size groups; a conversion that fails is a ValueError |
| PraatLong.MetadataOfFields | audiolabel.py:758-776 | conversely, the five fields, found and converted, make exactly that tier header |
| PraatLong.ReadLabelHead | audiolabel.py:807-818 | the `xmin`/`number` (and `xmax`) lines of a label, reading one more line for intervals |
| PraatLong.GatherFrom | audiolabel.py:820-824 | text lines are gathered up to the next entry line or the end |
| PraatLong.GatherJoins | audiolabel.py:820-824 | the gathered text is the first part followed by the following lines joined |
| PraatLong.LabelFrom | audiolabel.py:806-833 | a label is read and added, ending at an entry line or the end |
| PraatLong.AfterLabel | audiolabel.py:835-842 | after a label: a new tier on `item`, the end on EOF, another label otherwise |
| PraatLong.LongNext | audiolabel.py:806-842 | each pass of the outer loop moves forward |
| PraatLong.ReadTierMetadata | audiolabel.py:758-776 | builds the tier `LongMetadata` describes, or its error |
| PraatLong.SkipToFirstItem | audiolabel.py:792-798 | the loop equals `SkipHeader` |
| PraatLong.GatherText | audiolabel.py:820-824 | the loop equals `GatherFrom` |
| PraatLong.ReadLongLabel | audiolabel.py:806-833 | the current tier changes as `LabelFrom` says |
| PraatLong.AfterLongLabel | audiolabel.py:835-842 | the manager changes as `AfterLabel` says |
| PraatLong.LongPass | audiolabel.py:806-842 | one pass of the outer loop changes the manager and the current tier as `LongNext` says |
| PraatLong.ReadLongOpening | audiolabel.py:778-806 | after the header and the first tier's metadata, the reading is the outer loop from the line after the size |
| PraatLong.ReadPraatLong | audiolabel.py:778-842 | the manager read equals `ReadLong` of the lines, or the same error |
| PraatWriter.ShortTextLine | audiolabel.py:343 | the text line is quoted |
| PraatWriter.ShortLabelLines | audiolabel.py:341-415 | a label of an interval tier without `t2` cannot be written (ValueError); otherwise a point label takes 2 lines (341-344) and an interval label 3 (411-414) |
| PraatWriter.TierShortLines | audiolabel.py:332-346 | a tier can be written exactly when all its labels can |
| PraatWriter.TierShortLinesSize | audiolabel.py:402-417 | a written tier takes its header plus a fixed number of lines per label |
| PraatWriter.ManagerShortLines | audiolabel.py:545-557 | a manager can be written exactly when it has tiers and all can be written |
| PraatWriter.ShortRoundTrip | audiolabel.py:545-557 | reading back what the short writer writes gives each tier as the reader rebuilds it (`Reloaded`) |
| PraatWriter.ShortRoundTripExact | audiolabel.py:702-754 | tiers in the shape the reader builds read back exactly |
| PraatWriter.ReloadedIdentity | audiolabel.py:166-173 | re-adding the labels of a tier as read gives that tier |
| PraatWriter.ReloadedKeeps | audiolabel.py:166-173 | rebuilding keeps kind, name and start, sorts, and keeps exactly the labels |
| PraatWriter.ReloadsInOrder | audiolabel.py:545-557 | tiers read back keep their order, names, kinds, starts and labels |
| PraatWriter.ReloadedReversesTies | audiolabel.py:168-169 | two labels with equal `t1` come back in reverse order |
| PraatWriter.VerbatimTextLost | audiolabel.py:343 | a text `""` written without doubling reads back as `"` |
| PraatWriter.ShortRoundTripVerbatim | audiolabel.py:343 | texts without quotes are written the same either way and round-trip |
| PraatWriter.QuotedLine | audiolabel.py:20-21 | a quoted line cleans back to the text |
| Text.CleanQuote | audiolabel.py:20-21 | `_clean_praat_string` undoes quoting with doubled quotes |
| PraatLongWriter.LongLabelsLines | audiolabel.py:389-400 | the labels can be written exactly when every interval has `t2` |
| PraatLongWriter.TierLongLines | audiolabel.py:381-401 | a tier can be written exactly when all its labels can |
| PraatLongWriter.ManagerLongLines | audiolabel.py:527-544 | a manager can be written exactly when it has tiers and all can be written |
| PraatLongWriter.LongMetadataReadBack | audiolabel.py:758-776 | a tier header written with `=` reads back as the tier's header |
| PraatLongWriter.LongHeaderSkipped | audiolabel.py:527-536 | the reader skips the file header to the first `item [1]:` |
| PraatLongWriter.LongRoundTrip | audiolabel.py:527-544 | reading back what the long writer writes with `=` gives each tier as rebuilt |
| PraatLongWriter.LongRoundTripExact | audiolabel.py:778-842 | tiers in the shape the reader builds read back exactly |
| PraatLongWriter.LongReadsInOrder | audiolabel.py:778-842 | tiers read back keep their order, names, kinds, starts and labels |
| PraatLongWriter.LongEmptyTierUnreadable | audiolabel.py:806-812 | a tier without labels cannot be read back: the reader expects a label after every header |
| PraatLongWriter.ColonsUnreadable | audiolabel.py:316-322 | files the long writer produces with `class:`/`name:` never read back (AttributeError) |
| PraatLongWriter.MultiLineTextLosesBreak | audiolabel.py:817-828 | a text spanning two lines is joined without its line break |
| PraatLongWriter.PraatHeader | audiolabel.py:853-870 | the header is 7 lines; ValueError with no tiers |
| PraatLongWriter.HeaderChoosesFormat | audiolabel.py:853-870 | the header `_get_praat_header` writes is classified by `read_praat` as long or short as asked, when the start is non-negative |
| PraatLongWriter.HeaderScenario | audiolabel.py:853-870 | for one tier from 0.5 to 2.0 the short header lines are exact, and both headers are classified as written |
| Elan.TierMap | audiolabel.py:898 | the map's keys are the tier ids |
| Elan.TierMapLast | audiolabel.py:898 | a repeated id maps to the parent of its last tier |
| Elan.Keys | audiolabel.py:900 | the key list has each id once |
| Elan.Pass | audiolabel.py:902-905 | one pass over the keys moves ready tiers to the sorted list, keeping every key |
| Elan.SortFrom | audiolabel.py:901-905 | the passes end with a permutation of the keys where every tier follows its parent, or diverge |
| Elan.TierSort | audiolabel.py:898-905 | the sorted names are a permutation of the ids with every parent before its child, or `Diverges` |
| Elan.OrphanDiverges | audiolabel.py:901-905 | a parent that is no tier makes the sort loop forever |
| Elan.SortedParentsExist | audiolabel.py:901-905 | when the sort ends, every parent is a tier |
| Elan.TierSortTerminates | audiolabel.py:901-905 | parents ranked below their children make the sort end |
| Elan.SkippedTierScenario | audiolabel.py:902-905 | three root tiers come out as first, third, second (removal while iterating) |
| Elan.FindReference | audiolabel.py:930-932 | the first REF annotation with that id, or none |
| Elan.FindAlignable | audiolabel.py:934-935 | the first alignable annotation with that id, or none |
| Elan.Resolve | audiolabel.py:929-937 | following references ends at an alignable annotation's slots, RuntimeError when none, `Diverges` on a cycle |
| Elan.Anchor | audiolabel.py:923-939 | an alignable annotation anchors itself, an unknown kind is a RuntimeError |
| Elan.Round | audiolabel.py:955-957 | Python 2 `round`, halves away from zero |
| Elan.RoundMonotone | audiolabel.py:955-957 | rounding keeps order |
| Elan.Subdivide | audiolabel.py:951-961 | a run becomes as many labels, from the start to the end, each ending where the next starts |
| Elan.SubdivideOrdered | audiolabel.py:951-961 | with whole-number bounds the labels are sorted and lie within the run |
| Elan.BoundariesOrdered | audiolabel.py:951-960 | the computed boundaries start and end at the bounds and increase |
| Elan.WriteBackSlots | audiolabel.py:958 | each inner boundary is written to its time slot, other slots keep their values |
| Elan.Step | audiolabel.py:922-965 | one annotation is anchored, then extends or closes the run |
| Elan.Extend | audiolabel.py:941-965 | RuntimeError when a run starts on an empty slot; the run grows while the end slot is empty; otherwise it closes into `Subdivide` of its values from its start to the end slot's time, one slot id per label |
| Elan.NewTiers | audiolabel.py:908-911 | one empty interval tier per tier element, in document order |
| Elan.ReadEafShape | audiolabel.py:875-965 | reading keeps one tier per element, and errors are only the ones the code raises |
| Elan.TiersFromErrors | audiolabel.py:915-965 | the per-tier loop fails only with those errors |
| Elan.ReferenceChainScenario | audiolabel.py:923-937 | a chain of two references reaches the alignable annotation, and a cycle diverges |
| Elan.SubdivisionScenario | audiolabel.py:941-965 | a run of three annotations over 0..300 gives labels at 0, 100, 200 and fills the empty slots |
| Elan.SortTiers | audiolabel.py:898-905 | the loop equals `TierSort` |
| Elan.SortPass | audiolabel.py:902-905 | the loop equals `Pass` |
| Elan.FollowRefs | audiolabel.py:929-937 | the loop equals `Resolve` |
| Elan.CloseRun | audiolabel.py:949-965 | the subdivided labels are added to the tier and the slots written back |
| Elan.PlaceLabel | audiolabel.py:953-961 | one label of a run is placed |
| Elan.LabelTimes | audiolabel.py:954-960 | the label's times are the computed boundaries |
| Elan.ReadAnnotation | audiolabel.py:922-965 | one annotation changes tier, slots and run as `Step` says, or gives its error |
| Elan.ExtendRun | audiolabel.py:941-965 | as `Extend` says |
| Elan.ReadTier | audiolabel.py:915-965 | one tier is read as `TierFrom` says |
| Elan.ReadEafFile | audiolabel.py:875-965 | the manager read equals `ReadEaf`, or the same error |
| Elan.NewManager | audiolabel.py:908-911 | the manager holds fresh empty tiers as `NewTiers` says |
| Esps.EspsHeader | audiolabel.py:988-995 | the header ends at the first line starting with `#`; a ParseError at the end of the file |
| Esps.HeaderSeparator | audiolabel.py:993-994 | the separator is the last `separator` line's value, else the given one |
| Esps.AddField | audiolabel.py:1001-1007 | a field is added to the tier at its position, creating a tier when there is none |
| Esps.AddFields | audiolabel.py:1001-1007 | every field goes to its own tier, others unchanged |
| Esps.EspsLine | audiolabel.py:997-1000 | blank and comment lines are skipped exactly; a line with fewer than three words is a ValueError; otherwise the time and colour are the first two words and the fields are the rest split on the separator |
| Esps.EspsFromSorted | audiolabel.py:996-1007 | the tiers stay sorted |
| Esps.ReadEspsSorted | audiolabel.py:967-1007 | every tier read is sorted |
| Esps.ReadEspsHeader | audiolabel.py:988-995 | the loop equals `EspsHeader` |
| Esps.AddFieldTo | audiolabel.py:1003-1007 | the manager changes as `AddField` says |
| Esps.AddEspsLine | audiolabel.py:997-1007 | the manager changes as one body line says |
| Esps.AddEntry | audiolabel.py:1001-1007 | as `AddFields` says |
| Esps.ReadBodyLine | audiolabel.py:996-1007 | one body line changes the manager as one step of `EspsFrom`, and the end of the file stops the loop |
| Esps.ReadEspsBody | audiolabel.py:996-1007 | the body lines fill a new manager exactly as `EspsFrom` reads them, or fail with its error |
| Esps.ReadEspsFile | audiolabel.py:967-1007 | the manager read equals `ReadEsps`, or the same error |
| Esps.EntryLine | audiolabel.py:1000 | `time colour content` splits into those three words |
| Esps.FirstEntry | audiolabel.py:1001-1007 | the first entry creates a point tier with the label at that time, coloured |
| Esps.LaterEntry | audiolabel.py:1001-1007 | a later entry is appended and extends the end |
| Esps.TwoEntryScenario | audiolabel.py:967-1007 | a header and two entries give one point tier with both labels |
| Wavesurfer.WavesurferLabel | audiolabel.py:1015-1016 | a line gives an interval label, ValueError otherwise |
| Wavesurfer.WavesurferLabels | audiolabel.py:1014-1016 | every line gives its label, or the first line's error |
| Wavesurfer.WavesurferFromAddAll | audiolabel.py:1013-1017 | the tier read is the empty tier with all line labels added |
| Wavesurfer.ReadWavesurferSorted | audiolabel.py:1010-1017 | the tier read is a consistent sorted interval tier holding exactly the lines' labels |
| Wavesurfer.WavesurferLine | audiolabel.py:1015-1016 | `t1 t2 text` reads as that label |
| Wavesurfer.ReadWavesurferFile | audiolabel.py:1010-1017 | the manager read holds the tier `ReadWavesurfer` gives, or the same error |
| Table.HeaderFields | audiolabel.py:1033-1037 | the header line's names, which joined with the separator give the line without trailing whitespace; or the given names, one per comma-separated part and each stripped, AttributeError when none are given; an empty separator is a ValueError |
| Table.TierNames | audiolabel.py:1048-1054 | the tier names are the fields without the time columns, in order |
| Table.FindColumns | audiolabel.py:1039-1054 | ValueError exactly when the `t1` column is missing; `t2` is the first field named `t2_col` once `t1` is renamed, so the tiers are interval tiers exactly when `t2_col` names a field; the tier names are the fields but `t1` (and `t2` for interval tiers), in order |
| Table.NewTiers | audiolabel.py:1044-1054 | one empty tier per name, interval tiers when there is a `t2` column |
| Table.Pop | audiolabel.py:1063-1065 | `list.pop(i)`: the value and the rest, IndexError out of range |
| Table.TakeTimes | audiolabel.py:1060-1065 | `t2` is taken exactly when there is a column; made-up times are `idx * step + start`; a written `t1` is the cell at its index, and an index past the row is an IndexError |
| Table.ZipAdd | audiolabel.py:1066-1067 | each value goes to its tier, extra tiers unchanged |
| Table.AddRow | audiolabel.py:1066-1067 | a row that meets no tier changes nothing; otherwise ValueError exactly when a time is not a number, and else the `k`-th tier gains the `k`-th cell as a label with the row's times, as far as both go |
| Table.Finish | audiolabel.py:1070-1077 | the tier gets the first start and the last end, labels kept |
| Table.FinishEach | audiolabel.py:1075-1077 | every tier is finished the same way |
| Table.ReadTableShape | audiolabel.py:1019-1077 | every tier read is finished with the first row's time and the last row's end |
| Table.PopShiftAsWritten | audiolabel.py:1063-1065 | after popping `t1`, popping `t2`'s old index takes the next column |
| Table.TakeTimesScenario | audiolabel.py:1060-1067 | with `t1 t2 text` and `0.1 0.5 foo`, as written `t2` is `foo` and making the label is a ValueError; corrected `t2` is `0.5` and the text `foo` |
| Table.TimeColumnText | audiolabel.py:1066-1067 | a row whose `t2` cell is not a number makes no label: ValueError |
| Table.WrongTimesSilent | audiolabel.py:1060-1067 | with `t1 t2 a b` and `0.1 0.5 1.0 x`, as written the labels are made without an error, with `t2` 1.0 and the texts `0.5` and `x` |
| Table.TakeTimesCorrected | audiolabel.py:1060-1065 | the corrected order takes exactly the two time columns and keeps the rest in order |
| Table.AddRowTo | audiolabel.py:1066-1067 | the manager changes as `AddRow` says |
| Table.FinishAll | audiolabel.py:1075-1077 | the manager changes as `FinishEach` says |
| Table.FinishAt | audiolabel.py:1075-1077 | only the `k`-th tier's bounds change |
| Table.MakeTiers | audiolabel.py:1044-1054 | a fresh manager with the tiers `NewTiers` gives |
| Table.ReadRows | audiolabel.py:1057-1068 | the rows change the manager as `RowsFrom` says, and the first and last times are tracked |
| Table.ReadRow | audiolabel.py:1058-1068 | one row, as one step of `RowsFrom` |
| Table.ReadTableFile | audiolabel.py:1019-1077 | the manager read equals `ReadTable`, or the same error |
| Table.ReadTableAfterColumns | audiolabel.py:1056-1077 | after the header, reading is the rows then finishing |
| Patterns.SearchFirst | audiolabel.py:760-768 | `re.search` gives nothing when the pattern matches nowhere from the start position on, else the group at the leftmost position where it matches |
| Patterns.ClassValue | audiolabel.py:760 | `class = "(.+)"`: a found class is not empty; `QuotedValueOfWritten` reads a written class line |
| Patterns.NameValue | audiolabel.py:762 | `name = "(.+)"`: a found name is not empty; `QuotedValueOfWritten` reads a written name line |
| Patterns.XminValue | audiolabel.py:764 | `xmin = (-?[\d.]+)`: a found start is not empty; `SignedDecimalOfWritten` reads a written `xmin` line |
| Patterns.XmaxValue | audiolabel.py:766 | `xmax = (-?[\d.]+)`: a found end is not empty; `SignedDecimalOfWritten` reads a written `xmax` line |
| Patterns.SizeValue | audiolabel.py:768 | `(?:intervals\|points): size = (\d+)`: a found count is a non-empty run of digits; `SizeOfWritten` reads a written size line |
| Patterns.T1Value | audiolabel.py:785 | `(?:xmin\|number) = ([^\s]+)`: a found time is not empty; `T1ValueOfWritten` reads a written `xmin` or `number` line |
| Patterns.T2Value | audiolabel.py:786 | `xmax = ([^\s]+)`: a found time is not empty; `T2ValueOfWritten` reads a written `xmax` line |
| Patterns.TextValue | audiolabel.py:787 | `^\s*(?:text\|mark) = (\".*)`: the group opens with a quote, holds no newline, and follows `text = ` or `mark = ` after the indentation |
| Patterns.IsItemLine | audiolabel.py:789 | `^\s*item \[\d+\]:` after the indentation; `EntryOfWritten` recognises a written `item [n]:` line |
| Patterns.ItemLineEndsText | audiolabel.py:788-789 | a line that opens a tier also ends the text of the label before it |
| Patterns.IsEntryLine | audiolabel.py:788 | `^\s*(?:item\|intervals\|points) \[\d+\]:` after the indentation; `EntryOfWritten` recognises written entry lines |
| Patterns.StartsXminDigit | audiolabel.py:693 | `re.match('xmin = \d')`; a line that matches it does not start with a digit, so the long and short tests never both hold |
| Patterns.StartsDigit | audiolabel.py:696 | `re.match('\d')`: the first character is a digit |
| Patterns.SeparatorValue | audiolabel.py:983 | `separator\s+(.+)`: a found separator is not empty |
| Patterns.IsBlankOrComment | audiolabel.py:985 | `^\s*(#.*)?$`: the empty line is blank, and a line that opens with a character other than whitespace or `#` is not |
| Patterns.QuotedValueOfWritten | audiolabel.py:760-762 | on an indented `key = "text"` line the search gives the text |
| Patterns.SignedDecimalOfWritten | audiolabel.py:764-766 | on an indented `key = x` line with a written number the search gives the number |
| Patterns.T1ValueOfWritten | audiolabel.py:785 | on an indented `xmin = x` or `number = x` line the search gives the number |
| Patterns.T2ValueOfWritten | audiolabel.py:786 | on an indented `xmax = x` line the search gives the number |
| Patterns.SizeOfWritten | audiolabel.py:768 | on an indented size line the search gives the count's digits |
| Patterns.EntryOfWritten | audiolabel.py:788-789 | an indented `key [n]:` line is an entry line of that key after its indentation |
| Patterns.TextValueOfWritten | audiolabel.py:787 | on an indented `text = "..."` or `mark = "..."` line the group is the quoted text |
| Text.CleanPraatString | audiolabel.py:20-21 | strip, one enclosing quote dropped at each end, doubled quotes undone; `Text.CleanQuote` proves it inverts Praat's quoting |
| Text.StripAscii | audiolabel.py:1000 | `str.strip()`: the result is no longer than the line and neither starts nor ends with whitespace |
| Text.SplitWs | audiolabel.py:1015 | `split(None, n)`: every part is non-empty and starts with a non-space, and there are at most `n + 1` parts |
| Text.ParseInt | audiolabel.py:733 | `int`: a numeral reads as its value, and blank text is no number |
| Text.StripNewline | audiolabel.py:723 | stripping ignores the line's newline |
| Text.Find | audiolabel.py:1035 | the first occurrence of the separator from a position |
| Text.JoinSplitOn | audiolabel.py:1035 | joining the split parts with the separator gives back the line |
| Text.Split | audiolabel.py:1059 | `str.split`: ValueError on an empty separator, and the parts join back |
| Text.SplitThree | audiolabel.py:1015 | `strip().split(None, 2)` of three words gives them |
| Text.UnescapeEscape | audiolabel.py:328 | doubling quotes and undoing it gives back the text |
| Text.EscapeQuoteFree | audiolabel.py:328 | a text without quotes is unchanged by doubling |
| Text.NatToString | audiolabel.py:338 | `{:d}` gives digits only |
| Text.ParseIntNatToString | audiolabel.py:733 | `int` reads back what `{:d}` writes |
| Seqs.PyIndex | audiolabel.py:196 | Python indexing with negative keys |
| Seqs.IndexOf | audiolabel.py:178 | `list.index`: the first position, none when absent |
| Seqs.InsertAtMultiset | audiolabel.py:169 | inserting adds exactly the element |
| Seqs.RemoveAtMultiset | audiolabel.py:179 | removing takes exactly the element |
| Seqs.Filter | audiolabel.py:266-273 | a comprehension keeps, in order, exactly the elements satisfying the test |
| Seqs.FilterMembers | audiolabel.py:266-273 | an element is kept exactly when present and satisfying |
| Lines.ReadLine | audiolabel.py:721-722 | `readline` gives the line, or `""` past the end |
| Lines.Float | audiolabel.py:60-64 | `float` of a decoded Praat field: surrounding Unicode whitespace ignored, blank text is no number |
| Lines.ByteFloat | audiolabel.py:60-64 | `float` of an undecoded byte string from the ESPS, Wavesurfer and table readers: only ASCII whitespace ignored, blank text is no number |
| Lines.ByteFloatKeepsControl | audiolabel.py:1015-1016 | a `\x1f` after a byte-string time is not stripped but reaches the parser, so `0.5\x1f` is refused as `float` refuses it |
| Lines.Append | audiolabel.py:573-576 | the tier is appended to the manager |

## Left out

- File input and output, codecs and decoding: a reader takes the decoded lines. Byte-order marks are modelled only in `Praat.GuessEncoding`. The `codec` arguments and the label's `_codec` are not modelled.
- Float formatting and parsing are parameters, not implementations. The round-trip theorems assume that the parser reads back what the formatter writes.
- Float arithmetic is exact real arithmetic: rounding is not modelled in the scale and shift products, in the ELAN boundaries `(t2 - t1) / n`, or in the table's made-up times `idx * t1_step + t1_start`.
- NaN: only the empty slots of the time cache are modelled. The NaN that `duration` returns for a point label is `None`.
- The regular-expression engine: `Tiers.Search` takes the match test as a predicate on the text. The Praat and ESPS patterns are written out as matchers.
- XML parsing: `read_eaf` works on records, not on an element tree. `extra_data['eaf']` (the tier's attributes) is not kept.
- `__repr__`, `_repr_html_`, `__iter__`, `__len__`, `__contains__` and `_from_iterable` are not modelled: they are only presentation and container plumbing.
- The manager's `appdata` is not modelled.
- The ESPS and Wavesurfer branches of `_as_string` are not modelled: they do nothing.
- Manager.LabelsAt: returns a plain sequence. The `namedtuple` built from the tier names is not modelled, nor its errors; the name check of lines 645-654 only leaves its loop, so the `namedtuple` is still built for names it finds invalid, and only an empty or missing name gives a plain tuple. Python splits the joined names on whitespace and commas, so a name holding inner whitespace or a comma (`phone tier`) makes more fields than labels and `Ret(*labels)` raises TypeError, while surrounding whitespace (` y`) raises nothing. ValueError comes from repeated names, Python keywords, characters outside identifiers (such as `word-tier`), and names that start with a digit or an underscore.
- Tiers.Search: `return_match` is not modelled. Only the matching labels are returned, not the match objects.
- Labels are compared by value, not by identity. `list.index`/`list.remove` in `Tiers.Discarded`, `Tiers.Next` and `Tiers.Prev` therefore find the first structurally equal label. `Manager.RemovalIndex` compares tiers as sets of labels, as the `MutableSet` base class does.
- Aliasing between labels is not modelled. In Python, one label object added to a tier twice is scaled or shifted once per occurrence. Aliasing between tiers is modelled (`Manager.LabelManager.ScaleBy`).
- Every reader builds a fresh manager. The Python readers append to the manager they are called on, which may already hold tiers.
- There is no `read_praat` dispatcher. `Praat.ChooseFormat` decides the format, and `Praat.ReadPraatShort` and `PraatLong.ReadPraatLong` are the two readers it would call. The constructor's `from_type` dispatch is not modelled either.
- Manager.LabelManager.GetTier: does not model casting an interval tier whose labels lack `t2` to a point tier with 'left'. Python sets `t1` to None there and fails later. The precondition excludes that case.
- Elan.TierSort and Elan.Resolve: return `Diverges` where Python would loop forever.
- Elan.Keys: uses first-appearance order for the keys of the tier map. Python 2's dictionary key order is hash-dependent.
- PraatWriter.ShortTextLine, PraatWriter.ShortLabelLines, PraatWriter.TierShortLines, PraatWriter.ManagerShortLines, PraatLongWriter.LongTierHeaderLines, PraatLongWriter.LongLabelLines, PraatWriter.ShortRoundTrip, PraatLongWriter.LongRoundTrip: the model writes any name and text. In Python 2 the byte-string templates at audiolabel.py:319, 328, 336, 343, 383, 405 and 414 encode a unicode name or text as ASCII, so a non-ASCII character, which the Praat readers' decoded names and texts can hold, raises UnicodeEncodeError. The round trips therefore hold in Python only for ASCII names and texts. The long writer's interval text (line 391) is encoded with the label's codec first and is not affected.
- Table.Finish: with no rows, Python sets the tiers' start and end to None; the model keeps the default start and end.
- Table.Finish: Python stores the time column's text itself as the tiers' start and end; the model stores the parsed value, and keeps the tier's own start or end when the text is not a number.

## Findings

| source | as written | input that shows it | evidently intended | confidence | as-written member | corrected member |
|---|---|---|---|---|---|---|
| audiolabel.py:343 | the short writer puts the label text between quotes without doubling the quotes inside it | a label whose text is `""` is read back as `"` | double inner quotes as the long writer does (audiolabel.py:328) so `_clean_praat_string` restores the text | not executed | PraatWriter.VerbatimTextLost | PraatWriter.ShortRoundTrip |
| audiolabel.py:316-322 | the long writer writes tier headers as `class: "..."`, `name: "..."`, `xmin: ...`, `xmax: ...` | any manager written in the long format; the reader's `class = "..."` search finds nothing and raises AttributeError | write `class = "..."` etc. as the long reader and Praat expect | not executed | PraatLongWriter.ColonsUnreadable | PraatLongWriter.LongRoundTrip |
| audiolabel.py:1063-1065 | `t2` is popped at its index in the original row after `t1` has already been popped | header `t1	t2	text`, row `0.1	0.5	foo`: `t2` is taken as `foo`, so `Label(text='0.5', t1='0.1', t2='foo')` raises ValueError at `float('foo')` (audiolabel.py:64) and no label is made; only when the cell after `t2` is a number (`t1 t2 a b`, row `0.1 0.5 1.0 x`) are wrong times used silently | take `t2` from its own column | not executed | Table.TakeTimesScenario | Table.TakeTimesCorrected |
