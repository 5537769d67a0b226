# audiovisualizer in Dafny

A model of the core of *audiovisualizer*. The program turns the audio tracks of an album
into horizontal colour strips and stacks them into one album image. Each strip holds one
colour per time segment of its track. That colour is the segment's dominant frequency,
placed on a logarithmic 20 Hz – 20 kHz scale, mapped to a visible wavelength between 400
and 700 nm and then to RGB. The album image puts a title band above the stacked strips.
It has a border, and the background is either given or taken from the strips' own average
colour. Albums can come from a YouTube playlist or from a chaptered video, so the model
also covers the rules that pick and split those records.

Modules, one file each:

- `Wrappers` (`wrappers.dfy`): `Option` and `Result`.
- `Arith` (`arith.dfy`): monotonicity of multiplication, for integers and reals.
- `Colors` (`colors.dfy`): 8-bit channels and RGB triples.
- `Text` (`text.dfy`): the Python string operations the core uses. These are substring
  search, `split(sep)[0]`, `split('=')[-1]`, `split()`, `' '.join` and ASCII `lower()`.
- `Config` (`config.py`): filename sanitising and the black-or-white text colour rule.
- `AudioProcessing` (`audio_processing.py`): the wavelength-to-RGB mapping, the
  frequency-to-wavelength scale, segment arithmetic and the skip rule of `process_audio`.
- `Gradient` (`visualization.py`): `create_gradient_image`, as a method filling an `array2`.
- `DominantColor` (`visualization.py`): `get_dominant_color`. A loop pools the filtered
  pixels and the result is the truncated mean of each channel.
- `AlbumLayout` (`visualization.py`): `stack_images_with_margin` and
  `create_combined_image`. It covers dimensions, title band height, title stripping, the
  descending font-size search, the two-line split, paste offsets, and the canvas pixels
  after pasting.
- `YoutubeUtils` (`youtube_utils.py`): the rules over already-fetched metadata records.
  These are playlist entry extraction, the playlist/chaptered acceptance rule, search-hit
  selection and link choice, and chapter start and end times.

Python floats are modelled as `real`. `int()` of a non-negative float is `.Floor`. Python
list indexing, truthiness and exceptions are written out. An exception the code catches
becomes `None` (`process_audio`, `load_youtube_url`, `search_youtube_playlist`) or the
`TitleFailed` layout (the title drawing in `stack_images_with_margin`). Two exceptions
escape to the caller, and each gets an explicit outcome. When `split_album_video` has no
duration, the lookup raises, which gives `Raises`. When `create_combined_image` gets no
strips, `save` is called on `None`, which gives `Err`.

What the title code does (visualization.py:183-243):

- The font-size search starts at `int(0.7 * title_height)` and steps down by 2 to 20
  (visualization.py:183-192). It keeps the first size whose text fits the widest strip.
- If no size fits, the words are split in two halves (visualization.py:195-198). Both lines
  use the font size `max(20, int(0.35 * title_height))` (visualization.py:199-200). They
  are centred at `int(0.3 * title_height)` and `int(0.7 * title_height)`
  (visualization.py:205-206).
- The two-line branch returns at visualization.py:215, before the paste loop at
  visualization.py:236-241. So that canvas holds only the background and the title.
  `AlbumLayout.StackImagesWithMargin` states this.
- `int(title_height * 0.7)` is computed in binary floating point. For a band height of 90
  this gives 62, not 63. `AlbumLayout.SevenTenths` writes that case out.

## Model

| member | source | states |
|---|---|---|
| Config.SanitizeFilename | config.py:4-6 | the result holds none of the nine characters `< > : " / \ \| ? *` and is never longer than the input |
| Config.SanitizeClean | config.py:4-6 | a name with no forbidden character comes back unchanged |
| Config.SanitizeIdempotent | config.py:4-6 | sanitising twice gives the same name as sanitising once |
| Config.SanitizeAppend | config.py:6 | sanitising a concatenation is the concatenation of the sanitised parts |
| Config.SanitizeKeepsOthers | config.py:6 | every allowed character survives exactly as often as it occurred |
| Config.SanitizeLength | config.py:6 | the length is kept if and only if the name has no forbidden character |
| Config.GetTextColor | config.py:53-60 | the text colour is black or white, and black exactly when 299 R + 587 G + 114 B exceeds 127500, i.e. brightness above one half |
| Config.TextColorOfExtremes | config.py:53-60 | white text on black, black text on white |
| Text.BeforeFirst | visualization.py:169-172 | `s.split(sep)[0]`: a prefix of s that ends at the first occurrence of sep and contains no earlier one, or all of s |
| Text.AfterLast | youtube_utils.py:90 | `s.split('=')[-1]`: the suffix after the last `=`, containing no `=`, or all of s |
| Text.AsciiLower | youtube_utils.py:67 | same length, each A–Z letter lower-cased, every other character kept |
| Text.WordsOfJoin | visualization.py:195-198 | splitting a space-joined list of words on whitespace gives the words back |
| AudioProcessing.BandIntensities | audio_processing.py:66-89 | in each of the six bands every channel is in [0, 1] and at least one channel is 1 |
| AudioProcessing.Attenuation | audio_processing.py:91-96 | the factor is in [0.3, 1], and equals 1 exactly for 420 ≤ w ≤ 700 |
| AudioProcessing.ClampChannel | audio_processing.py:98-100 | negatives give 0, values from 255 up give 255, others are truncated to the integer just below |
| AudioProcessing.WavelengthToRgb | audio_processing.py:63-65 | wavelengths outside 380–780 nm give black |
| AudioProcessing.ScaledChannelsInRange | audio_processing.py:98-100 | inside 380–780 nm every scaled channel already lies in [0, 255] |
| AudioProcessing.IntensitiesContinuous | audio_processing.py:66-89 | the band intensities are continuous: they change by at most (w2 − w1)/20 across the band edges |
| AudioProcessing.Clip01 | audio_processing.py:107 | the clipped position lies in [0, 1] and values already in range are kept |
| AudioProcessing.FrequencyWavelength | audio_processing.py:103-108 | every frequency maps to a wavelength in [400, 700] nm |
| AudioProcessing.MapFrequencyToRgb | audio_processing.py:59-109 | every frequency gets a visible colour: some channel is at least 165 |
| AudioProcessing.BrightChannel | audio_processing.py:63-101 | between 400 and 700 nm some channel of the colour is at least 165 |
| AudioProcessing.FrequencyFloor | audio_processing.py:105 | frequencies at or below 1 Hz get the colour of 1 Hz |
| AudioProcessing.HigherFrequencyShorterWavelength | audio_processing.py:103-108 | with an increasing logarithm, a higher frequency never gets a longer wavelength |
| AudioProcessing.MapFrequenciesToColors | audio_processing.py:53-57 | one colour per frequency, in order |
| AudioProcessing.SegmentBounds | audio_processing.py:29-32 | each segment's start is at most its end, and its end is at most the sample count |
| AudioProcessing.SegmentsTile | audio_processing.py:24-32 | segments start at 0, end at the sample count, and each starts where the previous one ends |
| AudioProcessing.SegmentSizes | audio_processing.py:25-31 | every segment but the last has total // n samples, and the last has the remainder on top |
| AudioProcessing.ProcessAudio | audio_processing.py:5-50 | None exactly when the audio cannot be read, is an empty waveform that is not float32 (`max()` of nothing), or the segment count is 0; [] for a negative count; otherwise the colours of the kept segments in segment order |
| AudioProcessing.EmptyAudioNoColors | audio_processing.py:24-35 | an empty waveform has only empty segments, so no segment yields a frequency |
| AudioProcessing.KeptAtMost | audio_processing.py:29-44 | never more colours than segments |
| AudioProcessing.AllSegmentsKept | audio_processing.py:29-44 | with at least two samples per segment, frequency i is the dominant frequency of segment i |
| AudioProcessing.SegmentLongEnough | audio_processing.py:25-35 | at least 2n samples give every one of the n segments at least two samples |
| AudioProcessing.LongAudioOneColorPerSegment | audio_processing.py:24-47 | with at least 2n samples there is exactly one colour per segment, in order |
| AudioProcessing.ShortSegmentsSkipped | audio_processing.py:29-35 | with fewer than 2n samples every segment but the last is skipped |
| AudioProcessing.ShortAudioAtMostOneColor | audio_processing.py:24-47 | with fewer than 2n samples there is at most one colour |
| AudioProcessing.OneSamplePerSegmentYieldsNothing | audio_processing.py:24-47 | n samples in n segments give no colour at all |
| Gradient.FillColumn | visualization.py:18-19 | column x takes the colour and every other pixel is unchanged |
| Gradient.CreateGradientImage | visualization.py:10-25 | a new image of height × target_width; it is all black for no colours; column x shows colour x; columns past the colour list show the last colour |
| DominantColor.Filtered | visualization.py:41 | keeps at most as many pixels, each with channel sum strictly between 20 and 740 |
| DominantColor.FilteredAppend | visualization.py:41 | the filter works pixel by pixel: filtering a concatenation concatenates the results, so kept pixels stay in order |
| DominantColor.FilteredSingle | visualization.py:41 | a tuple pixel with channel sum strictly between 20 and 740 is kept as its first three channels; any other pixel is dropped |
| DominantColor.Mean | visualization.py:47 | the truncated mean m satisfies m·n ≤ sum < (m+1)·n |
| DominantColor.GetDominantColor | visualization.py:28-49 | black when no pixel survives the filter, otherwise the truncated mean of each channel over all kept pixels of all images |
| DominantColor.PoolPermutation | visualization.py:30-42 | reordering the images only reorders the pooled pixels |
| DominantColor.DominantColorOrderFree | visualization.py:28-49 | the dominant colour does not depend on the order of the images |
| DominantColor.MeansOrderFree | visualization.py:47 | reordering the images leaves each channel mean unchanged |
| DominantColor.MeanBetween | visualization.py:47 | each channel mean lies between the smallest and largest value of that channel |
| AlbumLayout.MaxWidth | visualization.py:134 | the width is at least every strip's width and is the width of some strip |
| AlbumLayout.LengthFactor | visualization.py:150 | the factor is 0.8 up to 24 characters, length/30 from 24 to 45, and 1.5 from 45 on |
| AlbumLayout.LengthFactorMono | visualization.py:150 | a longer title never gets a smaller factor |
| AlbumLayout.ClampTitle | visualization.py:151-152 | values in [60, 150] are kept, smaller ones become 60 and larger ones 150 |
| AlbumLayout.TitleHeight | visualization.py:148-154 | the band height is 0 exactly when there is no title, and otherwise lies in [60, 150] |
| AlbumLayout.TitleHeightMonotone | visualization.py:145-152 | a larger image area never gives a smaller title band |
| AlbumLayout.TitleHeightGrowsWithLength | visualization.py:148-152 | longer titles need more space: for the same area a longer title never gets a smaller band |
| AlbumLayout.DisplayTitle | visualization.py:169-174 | the shown title is a prefix that stops at the first " [", else at the first " {", else is the whole title |
| AlbumLayout.DisplayTitleExample | visualization.py:169-170 | "My Album [Remastered]" is shown as "My Album" |
| AlbumLayout.LargestFit | visualization.py:187-192 | the size found is a tried size (max, max−2, …, ≥ 20) whose text fits, and every larger tried size does not fit; none means no tried size fits |
| AlbumLayout.FitOneLine | visualization.py:187-193 | the descending loop with `break` finds exactly the largest fitting size |
| AlbumLayout.SplitInTwo | visualization.py:195-198 | the first line is the first ⌊n/2⌋ words joined by single spaces, the second the rest; together their words are the words of the title |
| AlbumLayout.SevenTenths | visualization.py:183 | int(0.7·h) in floating point is h·7//10 or one less |
| AlbumLayout.TitleFor | visualization.py:164-232 | no title without a title or band; with both, `TitleFailed` exactly when the font cannot be loaded, and otherwise a title is always drawn. One line exactly when some tried size fits, at the largest such size, at ((width + 2·border)//2, th//2), with outline max(2, int(0.05·size)). Otherwise two lines with the word split, at th·3//10 and int(0.7·th), with the shared size max(20, th·35//100). The text is black or white by background and the outline is the other colour |
| AlbumLayout.StackOffsetStep | visualization.py:241 | the next strip starts one strip height plus one margin further down |
| AlbumLayout.LaterStripsBelow | visualization.py:236-241 | a later strip starts below an earlier one's end plus the margin, so strips never overlap |
| AlbumLayout.StackOffsetEnd | visualization.py:135 | the last strip ends exactly at the stack height |
| AlbumLayout.StripInCanvas | visualization.py:236-241 | every strip lies inside the canvas, inset by the border and below the title band |
| AlbumLayout.CompositeShowsStrip | visualization.py:235-241 | after pasting, a pixel inside strip i shows strip i's pixel |
| AlbumLayout.CompositeBackground | visualization.py:159-161 | a pixel outside every strip keeps the background colour |
| AlbumLayout.PasteImage | visualization.py:240 | the strip's pixels are copied to its rectangle and every other pixel is unchanged |
| AlbumLayout.ChooseTitle | visualization.py:164-232 | the font-size loop and fallback give the title layout TitleFor describes |
| AlbumLayout.PasteAll | visualization.py:235-241 | after the paste loop, every canvas pixel is the composite of all strips over the background |
| AlbumLayout.StackImagesWithMargin | visualization.py:109-243 | None exactly for no strips; otherwise a new canvas of (max width + 2·border) × (stack height + 2·border + band); strips pasted over the background, except after a two-line title |
| AlbumLayout.CreateCombinedImage | visualization.py:245-260 | an error exactly for no strips; otherwise a new image of (max width + 60) × (stack height + 60 + band) whose pixels are the strips stacked with margin 5 and border 30 over the background (only the background after a two-line title), and the file name is the sanitised title + "_combined.png" |
| YoutubeUtils.ExtractTracksFromPlaylist | youtube_utils.py:165-175 | no `entries` key gives []; otherwise the tracks of the entries, entry by entry |
| YoutubeUtils.TracksAppend | youtube_utils.py:168-174 | the tracks of two entry lists are the tracks of each, concatenated |
| YoutubeUtils.TracksLength | youtube_utils.py:168-169 | at most one track per entry, and one per entry exactly when every entry is a dict with an id |
| YoutubeUtils.TrackUrls | youtube_utils.py:173 | every track's url is the watch URL of its own id |
| YoutubeUtils.TracksOfValidEntries | youtube_utils.py:168-174 | when every entry has an id, track k has entry k's id and its title or "Unknown Track" |
| YoutubeUtils.SkippedEntry | youtube_utils.py:169 | an entry that is not a dict with an id contributes nothing |
| YoutubeUtils.LoadYoutubeUrl | youtube_utils.py:78-97 | accepted only with more than one entry or more than one chapter; only the id may change; a falsy id comes from the first entry, or for a chaptered video is exactly the text after the last `=` of the page URL ("" when missing); a non-dict first entry rejects |
| YoutubeUtils.SingleEntryPlaylistRejected | youtube_utils.py:83-94 | a one-entry playlist without chapters is rejected |
| YoutubeUtils.LoadStable | youtube_utils.py:83-91 | an accepted record is accepted again unchanged |
| YoutubeUtils.DecimalString | youtube_utils.py:129 | `str(n)`, as in `f"Track {idx}"`, consists of decimal digits only, is one digit exactly for n < 10, and has no leading zero |
| YoutubeUtils.DecimalRoundTrip | youtube_utils.py:61-62 | `int(str(n)) == n` |
| YoutubeUtils.PyIndex | youtube_utils.py:64 | `entries[i]` succeeds exactly for −n ≤ i < n and reads position i or i + n |
| YoutubeUtils.SelectionIndex | youtube_utils.py:59-62 | the given index, else a digit-only environment value, else none |
| YoutubeUtils.ResolvedUrlForm | youtube_utils.py:66-70 | the link is the playlist page exactly when the hit is a playlist, its title mentions one, or the query has `list=`; otherwise the watch page; either way it ends with the id |
| YoutubeUtils.SearchYoutubePlaylist | youtube_utils.py:36-76 | a direct playlist link is loaded as is; no hits give None; the hits are returned exactly when entries-only is asked and there are hits; a loaded link is the resolved link of some hit |
| YoutubeUtils.SearchPicksFirst | youtube_utils.py:59-64 | without any index the first hit is resolved |
| YoutubeUtils.SearchPicksIndex | youtube_utils.py:64 | a given index selects like Python indexing, negatives from the end, out of range gives None |
| YoutubeUtils.SearchPicksEnvIndex | youtube_utils.py:59-64 | an environment value `str(k)` selects hit k |
| YoutubeUtils.FullDuration | youtube_utils.py:121-125 | the probed duration, else one second past the last chapter's end_time, else an exception |
| YoutubeUtils.ChapterEnd | youtube_utils.py:132-135 | a non-last chapter's end exists exactly when the next has a start_time; the last ends no later than duration − 0.1 and its own end_time, and exactly at duration − 0.1 when it has no end_time |
| YoutubeUtils.ChaptersAbut | youtube_utils.py:132-133 | each non-last track ends where the next one starts |
| YoutubeUtils.LastChapterEnd | youtube_utils.py:134-135 | the last track ends at the minimum of its end_time (the full duration when missing) and duration − 0.1 |
| YoutubeUtils.FallbackDurationKeepsLastEnd | youtube_utils.py:125-135 | when the probe fails, the last track ends at its own end_time |
| YoutubeUtils.TrackIdsDistinct | youtube_utils.py:148 | chapter tracks of one video get pairwise different ids |
| YoutubeUtils.SplitAlbumVideo | youtube_utils.py:99-163 | no chapters give the whole video as one track titled by the video or "Full Album"; no known duration gives an exception; otherwise one entry per chapter, present exactly when the chapter's end is known, with id `<video>_track<k>`, its start_time, that end, and its title or "Track k" |
| YoutubeUtils.SplitSegmentsAbut | youtube_utils.py:127-135 | consecutive chapter segments of a split abut |

## Left out

- `RUNME.py` and `consoleMain.py` are not part of this model. They are the GUI and console front ends.
- Reading WAV files, mixing to mono, the Hann window, `rfft`, `rfftfreq` and `argmax` are left out. `AudioProcessing.ProcessAudio` takes the samples (None for an unreadable file), whether they are float32, and a `dominantFrequency` function on a segment.
- `AudioProcessing.ProcessAudio`: normalisation divides every sample by one constant, which is folded into the samples given. Of that step only its failure is modelled: `max()` of an empty non-float32 waveform raises.
- `AudioProcessing.MapFrequencyToRgb`: `log10` is a parameter. The only thing assumed of it is log10(20) < log10(20000). `AudioProcessing.HigherFrequencyShorterWavelength` also assumes it is increasing.
- `create_track_visualization` is left out: it is matplotlib text and figure rendering.
- The `wavelength_to_rgb` / `frequency_to_color` pair in `config.py` is left out. The pipeline never calls it, and it duplicates the mapping in `audio_processing.py` with gamma powers.
- `get_font_path_from_matplotlib` is left out (font discovery on the filesystem). Whether the font loads is a boolean input, and the rendered text width is a function input.
- The glyph pixels of the title are not modelled. `AlbumLayout.TitleLayout` records what is drawn, where, at what size and in which colours. The canvas pixels are stated for the strips and the background only.
- `AlbumLayout.StackImagesWithMargin`: `sqrt(width * total_height)` is taken as the input `sqrtArea` rather than computed. Images are already decoded strips. Their 50×50 resized pixel lists are inputs. `margin` and `border` are natural numbers.
- `AlbumLayout.CreateCombinedImage` returns the file name but not the folder path, and writes nothing. `album_title` is a string, because `None` would make `sanitize_filename` raise.
- `DominantColor.GetDominantColor`: pixels are either tuples with at least three channels or single-band values. Two-channel (LA) tuples, which would make the mean raise, are not modelled.
- `Config.GetTextColor` uses exact arithmetic. In binary floating point the background (218, 58, 248) lies exactly on the 0.5 boundary, and there the source picks black where the model picks white.
- `Config.SanitizeFilename` models the regular expression as a character filter rather than a regex engine.
- `YoutubeUtils.SelectionIndex` treats only ASCII 0–9 as digits. `str.isdigit` also accepts other Unicode digits.
- `YoutubeUtils.ResolvedUrlForm`: `lower()` is modelled for ASCII letters only.
- `YoutubeUtils.SearchYoutubePlaylist`: the fetched hit list is an input, with None when the search raised and [] for a missing `entries` key. Loading the chosen link is returned as `Load(link)` rather than performed. A `title` or `_type` present with a non-string value is not modelled.
- `YoutubeUtils.LoadYoutubeUrl`: ids are strings or missing. An `id` key holding a non-string value is not modelled.
- `YoutubeUtils.SplitAlbumVideo`: downloading, ffprobe, ffmpeg and the `track_NN.wav` file names are left out. So is the check that the file was created. Each chapter gives its planned segment, or None when the next chapter lacks a start_time.
- `download_youtube_audio_and_metadata` is left out (network, subprocess and file copying). The printed progress messages are left out too.
