/** The player controller (bot/music/controller.py): the texts of its status embed, the
    filter presets and the paged menu that offers them, applying a preset, and the rules of the
    control buttons. The equalizer gains and rates of each preset are not modelled, only its
    name and description. */
module Controller {
  import opened Wrappers
  import opened Strings
  import opened Seqs
  import opened Wavelink
  import opened SettingsStore
  import Helpers
  import Music
  import Storage

  // ---------------------------------------------------------------------------------------
  // Status texts
  // ---------------------------------------------------------------------------------------

  /** `_queue_mode_text`. */
  function QueueModeText(mode: QueueMode): (text: string)
    ensures text == "Tắt" <==> mode == Normal
    ensures text == "Bài hiện tại" <==> mode == Loop
    ensures text == "Toàn bộ" <==> mode == LoopAll
  {
    match mode
    case Normal => "Tắt"
    case Loop => "Bài hiện tại"
    case LoopAll => "Toàn bộ"
  }

  /** `_autoplay_text`: partial autoplay (only the queue, no suggestions) reads as off. */
  function AutoplayText(mode: AutoPlayMode): (text: string)
    ensures text == "Bật" <==> mode == Enabled
    ensures text == "Bật" || text == "Tắt"
  {
    match mode
    case Enabled => "Bật"
    case Partial => "Tắt"
    case Disabled => "Tắt"
  }

  /** `_filters_preset_text`: a missing or empty preset reads as off. */
  function FiltersPresetText(value: Option<string>): (text: string)
    ensures value.Some? && value.value != "" ==> text == value.value
    ensures value.None? || value.value == "" ==> text == "Tắt"
  {
    if value.None? || value.value == "" then "Tắt" else value.value
  }

  // ---------------------------------------------------------------------------------------
  // Presets
  // ---------------------------------------------------------------------------------------

  /** A preset: its name (the key of `FILTER_PRESETS`) and its description. */
  datatype Preset = Preset(name: string, description: string)

  /** Off/Reset. */
  const OffReset: seq<Preset> := [
    Preset("off", "Tắt tất cả filter"),
    Preset("reset", "Reset về mặc định")
  ]

  /** Quality / Clarity. */
  const QualityPresets: seq<Preset> := [
    Preset("balanced", "Cân bằng nhẹ, nghe lâu không mệt"),
    Preset("studio", "EQ nhẹ kiểu studio, rõ mà không gắt"),
    Preset("clarity", "Tăng độ rõ, giảm đục"),
    Preset("presence", "Nhấn mid để giọng nổi bật"),
    Preset("vocalclear", "Giọng rõ, bớt ù và chói"),
    Preset("vocalair", "Giọng sáng, thêm không khí"),
    Preset("warm", "Ấm, dịu tai"),
    Preset("bright", "Sáng, rõ chi tiết"),
    Preset("smooth", "Mượt, giảm gắt"),
    Preset("basscut", "Giảm bass, bớt ù"),
    Preset("trebleboost", "Tăng treble, sáng tiếng"),
    Preset("tightbass", "Bass gọn, bớt dày"),
    Preset("stage", "Không gian rộng, giọng tách lớp")
  ]

  /** Bass Mix. */
  const BassMixPresets: seq<Preset> := [
    Preset("bassclarity", "Bass dày nhưng vẫn rõ"),
    Preset("bassvocal", "Bass rõ, giọng nổi"),
    Preset("basswide", "Bass + sân khấu rộng"),
    Preset("basssmooth", "Bass ấm, giảm gắt")
  ]

  /** Pitch/Key. */
  const PitchPresets: seq<Preset> := [
    Preset("pitchup", "Tăng tông +1 (pitch)"),
    Preset("pitchdown", "Giảm tông -1 (pitch)"),
    Preset("pitchup2", "Tăng tông +2 (pitch)"),
    Preset("pitchdown2", "Giảm tông -2 (pitch)")
  ]

  /** Bass Category. */
  const BassPresets: seq<Preset> := [
    Preset("bassboost", "Tăng bass mạnh"),
    Preset("deepbass", "Bass sâu và nặng"),
    Preset("softbass", "Bass nhẹ nhàng, warm"),
    Preset("megabass", "Bass cực mạnh (cẩn thận tai!)"),
    Preset("heavybass", "Bass nặng + treble boost")
  ]

  /** Speed/Pitch Category. */
  const SpeedPresets: seq<Preset> := [
    Preset("nightcore", "Anime style - nhanh + cao"),
    Preset("daycore", "Chậm + trầm"),
    Preset("slowed", "Slowed nhẹ nhàng"),
    Preset("superslow", "Slowed cực chậm + reverb feel"),
    Preset("doubletime", "Gấp đôi tốc độ"),
    Preset("chipmunk", "Giọng sóc cao vút"),
    Preset("darthvader", "Giọng trầm như Darth Vader")
  ]

  /** Aesthetic Category. */
  const AestheticPresets: seq<Preset> := [
    Preset("lofi", "Lo-fi chill vibes"),
    Preset("vaporwave", "Aesthetic 80s vibes")
  ]

  /** 3D/Spatial Category. */
  const SpatialPresets: seq<Preset> := [
    Preset("8d", "8D audio xoay quanh đầu"),
    Preset("reverse8d", "8D xoay ngược chiều"),
    Preset("stereowide", "Mở rộng stereo field"),
    Preset("mono", "Chuyển sang mono")
  ]

  /** Modulation Category. */
  const ModulationPresets: seq<Preset> := [
    Preset("vibrato", "Hiệu ứng vibrato mạnh"),
    Preset("tremolo", "Hiệu ứng tremolo mạnh")
  ]

  /** Vocal Category. */
  const VocalPresets: seq<Preset> := [
    Preset("karaoke", "Giảm vocal (karaoke)"),
    Preset("vocal", "Tăng vocal rõ ràng")
  ]

  /** Genre Eq Category. */
  const GenrePresets: seq<Preset> := [
    Preset("rock", "EQ cho Rock/Metal"),
    Preset("pop", "EQ cân bằng cho Pop"),
    Preset("electronic", "EQ cho EDM/Electronic"),
    Preset("cinema", "Âm thanh cinematic rộng"),
    Preset("party", "Bass + speed cho party")
  ]

  /** Fun/Effect Category. */
  const FunPresets: seq<Preset> := [
    Preset("underwater", "Âm thanh như dưới nước"),
    Preset("phone", "Âm thanh qua điện thoại cũ"),
    Preset("radio", "Âm thanh radio vintage"),
    Preset("distorted", "Âm thanh distortion nhẹ")
  ]
  /** `FILTER_PRESETS`, in the order of its keys. */
  const FilterPresets: seq<Preset> :=
    OffReset + QualityPresets + BassMixPresets + PitchPresets + BassPresets + SpeedPresets +
    AestheticPresets + SpatialPresets + ModulationPresets + VocalPresets + GenrePresets + FunPresets

  // `filter_order` of `get_filter_options`, category by category.
  const OffOrder: seq<string> := ["off"]
  const QualityOrder: seq<string> := ["balanced", "studio", "clarity", "presence", "vocalclear", "vocalair",
    "warm", "bright", "smooth", "basscut", "trebleboost", "tightbass", "stage"]
  const BassMixOrder: seq<string> := ["bassclarity", "bassvocal", "basswide", "basssmooth"]
  const BassOrder: seq<string> := ["bassboost", "deepbass", "softbass", "megabass", "heavybass"]
  const PitchOrder: seq<string> := ["pitchup", "pitchdown", "pitchup2", "pitchdown2"]
  const SpeedOrder: seq<string> := ["nightcore", "daycore", "slowed", "superslow", "doubletime", "chipmunk", "darthvader"]
  const AestheticOrder: seq<string> := ["lofi", "vaporwave"]
  const SpatialOrder: seq<string> := ["8d", "reverse8d", "stereowide", "mono"]
  const ModulationOrder: seq<string> := ["vibrato", "tremolo"]
  const VocalOrder: seq<string> := ["karaoke", "vocal"]
  const GenreOrder: seq<string> := ["rock", "pop", "electronic", "cinema", "party"]
  const FunOrder: seq<string> := ["underwater", "phone", "radio", "distorted"]

  /** `filter_order`: the menu's order, which groups bass before pitch. */
  const FilterOrder: seq<string> :=
    OffOrder + QualityOrder + BassMixOrder + BassOrder + PitchOrder + SpeedOrder +
    AestheticOrder + SpatialOrder + ModulationOrder + VocalOrder + GenreOrder + FunOrder


  function Names(ps: seq<Preset>): (names: seq<string>)
    ensures |names| == |ps| && forall i :: 0 <= i < |ps| ==> names[i] == ps[i].name
  {
    seq(|ps|, i requires 0 <= i < |ps| => ps[i].name)
  }

  /** `FILTER_PRESETS[name]`: the first preset of that name. */
  function FindPreset(presets: seq<Preset>, name: string): (r: Option<Preset>)
    ensures r.Some? <==> name in Names(presets)
    ensures r.Some? ==> r.value in presets && r.value.name == name
  {
    if presets == [] then None
    else if presets[0].name == name then Some(presets[0])
    else
      assert Names(presets) == [presets[0].name] + Names(presets[1..]);
      FindPreset(presets[1..], name)
  }

  lemma NamesAppend(a: seq<Preset>, b: seq<Preset>)
    ensures Names(a + b) == Names(a) + Names(b)
  {
  }

  /** The names of `FILTER_PRESETS` category by category. */
  lemma PresetNames()
    ensures Names(FilterPresets) ==
      Names(OffReset) + Names(QualityPresets) + Names(BassMixPresets) + Names(PitchPresets) +
      Names(BassPresets) + Names(SpeedPresets) + Names(AestheticPresets) + Names(SpatialPresets) +
      Names(ModulationPresets) + Names(VocalPresets) + Names(GenrePresets) + Names(FunPresets)
  {
    var a := OffReset;
    NamesAppend(a, QualityPresets); a := a + QualityPresets;
    NamesAppend(a, BassMixPresets); a := a + BassMixPresets;
    NamesAppend(a, PitchPresets); a := a + PitchPresets;
    NamesAppend(a, BassPresets); a := a + BassPresets;
    NamesAppend(a, SpeedPresets); a := a + SpeedPresets;
    NamesAppend(a, AestheticPresets); a := a + AestheticPresets;
    NamesAppend(a, SpatialPresets); a := a + SpatialPresets;
    NamesAppend(a, ModulationPresets); a := a + ModulationPresets;
    NamesAppend(a, VocalPresets); a := a + VocalPresets;
    NamesAppend(a, GenrePresets); a := a + GenrePresets;
    NamesAppend(a, FunPresets); a := a + FunPresets;
  }

  /** Each category of `filter_order` lists that category's presets in the same order. */
  lemma CategoryNames()
    ensures Names(OffReset) == OffOrder + ["reset"]
    ensures Names(QualityPresets) == QualityOrder
    ensures Names(BassMixPresets) == BassMixOrder
    ensures Names(PitchPresets) == PitchOrder
    ensures Names(BassPresets) == BassOrder
    ensures Names(SpeedPresets) == SpeedOrder
    ensures Names(AestheticPresets) == AestheticOrder
    ensures Names(SpatialPresets) == SpatialOrder
    ensures Names(ModulationPresets) == ModulationOrder
    ensures Names(VocalPresets) == VocalOrder
    ensures Names(GenrePresets) == GenreOrder
    ensures Names(FunPresets) == FunOrder
  {
  }

  function NotReset(): string -> bool
  {
    (f: string) => f != "reset"
  }

  /** The keys of `FILTER_PRESETS` without "reset", in the dict's order: what
      `get_total_filter_pages` counts. */
  function PresetKeys(): seq<string>
  {
    Filter(Names(FilterPresets), NotReset())
  }

  /** The test `f in FILTER_PRESETS and f != "reset"` of `get_filter_options`. */
  function Offered(): string -> bool
  {
    (f: string) => FindPreset(FilterPresets, f).Some? && f != "reset"
  }

  /** `available`: the names of `filter_order` that the menu offers. */
  function Available(): seq<string>
  {
    Filter(FilterOrder, Offered())
  }

  lemma QualityWithoutReset()
    ensures forall i :: 0 <= i < |QualityOrder| ==> NotReset()(QualityOrder[i])
  {
  }

  lemma BassMixWithoutReset()
    ensures forall i :: 0 <= i < |BassMixOrder| ==> NotReset()(BassMixOrder[i])
  {
  }

  lemma PitchWithoutReset()
    ensures forall i :: 0 <= i < |PitchOrder| ==> NotReset()(PitchOrder[i])
  {
  }

  lemma BassWithoutReset()
    ensures forall i :: 0 <= i < |BassOrder| ==> NotReset()(BassOrder[i])
  {
  }

  lemma SpeedWithoutReset()
    ensures forall i :: 0 <= i < |SpeedOrder| ==> NotReset()(SpeedOrder[i])
  {
  }

  lemma AestheticWithoutReset()
    ensures forall i :: 0 <= i < |AestheticOrder| ==> NotReset()(AestheticOrder[i])
  {
  }

  lemma SpatialWithoutReset()
    ensures forall i :: 0 <= i < |SpatialOrder| ==> NotReset()(SpatialOrder[i])
  {
  }

  lemma ModulationWithoutReset()
    ensures forall i :: 0 <= i < |ModulationOrder| ==> NotReset()(ModulationOrder[i])
  {
  }

  lemma VocalWithoutReset()
    ensures forall i :: 0 <= i < |VocalOrder| ==> NotReset()(VocalOrder[i])
  {
  }

  lemma GenreWithoutReset()
    ensures forall i :: 0 <= i < |GenreOrder| ==> NotReset()(GenreOrder[i])
  {
  }

  lemma FunWithoutReset()
    ensures forall i :: 0 <= i < |FunOrder| ==> NotReset()(FunOrder[i])
  {
  }

  /** The names of `FILTER_PRESETS` category by category, as `filter_order` spells them. */
  const PresetOrder: seq<string> :=
    OffOrder + ["reset"] + QualityOrder + BassMixOrder + PitchOrder + BassOrder + SpeedOrder +
    AestheticOrder + SpatialOrder + ModulationOrder + VocalOrder + GenreOrder + FunOrder

  lemma PresetOrderNames()
    ensures Names(FilterPresets) == PresetOrder
  {
    PresetNames();
    CategoryNames();
  }

  /** The first categories of the presets, with "reset" filtered out. */
  lemma FirstCategoriesWithoutReset()
    ensures Filter(OffOrder + ["reset"] + QualityOrder + BassMixOrder + PitchOrder + BassOrder +
                   SpeedOrder, NotReset()) ==
            OffOrder + QualityOrder + BassMixOrder + PitchOrder + BassOrder + SpeedOrder
  {
    var keep := NotReset();
    assert Filter(OffOrder + ["reset"], keep) == OffOrder;
    var a, f := OffOrder + ["reset"], OffOrder;
    QualityWithoutReset();
    FilterAppendKept(a, QualityOrder, keep);
    a, f := a + QualityOrder, f + QualityOrder;
    BassMixWithoutReset();
    FilterAppendKept(a, BassMixOrder, keep);
    a, f := a + BassMixOrder, f + BassMixOrder;
    PitchWithoutReset();
    FilterAppendKept(a, PitchOrder, keep);
    a, f := a + PitchOrder, f + PitchOrder;
    BassWithoutReset();
    FilterAppendKept(a, BassOrder, keep);
    a, f := a + BassOrder, f + BassOrder;
    SpeedWithoutReset();
    FilterAppendKept(a, SpeedOrder, keep);
    a, f := a + SpeedOrder, f + SpeedOrder;
  }

  /** Without "reset" the keys are the categories' names in the dict's order. */
  lemma PresetKeysByCategory()
    ensures Filter(PresetOrder, NotReset()) ==
      OffOrder + QualityOrder + BassMixOrder + PitchOrder + BassOrder + SpeedOrder +
      AestheticOrder + SpatialOrder + ModulationOrder + VocalOrder + GenreOrder + FunOrder
  {
    var keep := NotReset();
    FirstCategoriesWithoutReset();
    var a := OffOrder + ["reset"] + QualityOrder + BassMixOrder + PitchOrder + BassOrder + SpeedOrder;
    var f := OffOrder + QualityOrder + BassMixOrder + PitchOrder + BassOrder + SpeedOrder;
    AestheticWithoutReset();
    FilterAppendKept(a, AestheticOrder, keep);
    a, f := a + AestheticOrder, f + AestheticOrder;
    SpatialWithoutReset();
    FilterAppendKept(a, SpatialOrder, keep);
    a, f := a + SpatialOrder, f + SpatialOrder;
    ModulationWithoutReset();
    FilterAppendKept(a, ModulationOrder, keep);
    a, f := a + ModulationOrder, f + ModulationOrder;
    VocalWithoutReset();
    FilterAppendKept(a, VocalOrder, keep);
    a, f := a + VocalOrder, f + VocalOrder;
    GenreWithoutReset();
    FilterAppendKept(a, GenreOrder, keep);
    a, f := a + GenreOrder, f + GenreOrder;
    FunWithoutReset();
    FilterAppendKept(a, FunOrder, keep);
    a, f := a + FunOrder, f + FunOrder;
  }

  /** `get_total_filter_pages` counts 53 presets: the keys without "reset". */
  lemma PresetKeysCount()
    ensures PresetKeys() == Filter(PresetOrder, NotReset())
    ensures |PresetKeys()| == 53
  {
    PresetOrderNames();
    PresetKeysByCategory();
  }

  /** `filter_order` holds the same names as the preset keys without "reset", only with the
      bass and pitch categories swapped. */
  lemma OrderHoldsKeys()
    ensures multiset(FilterOrder) == multiset(Filter(PresetOrder, NotReset()))
  {
    PresetKeysByCategory();
    SwapLast(OffOrder + QualityOrder + BassMixOrder, BassOrder, PitchOrder);
  }

  lemma SwapLast<T>(a: seq<T>, b: seq<T>, c: seq<T>)
    ensures multiset(a + b + c) == multiset(a + c + b)
  {
    calc {
      multiset(a + b + c);
      multiset(a) + multiset(b) + multiset(c);
      multiset(a + c + b);
    }
  }

  /** Every name of `filter_order` is a preset name other than "reset". */
  lemma OrderWithinKeys()
    ensures forall x :: x in FilterOrder ==> x in PresetOrder && x != "reset"
  {
    OrderHoldsKeys();
    FilterMembers(PresetOrder, NotReset());
    forall x | x in FilterOrder ensures x in PresetOrder && x != "reset" {
      assert x in multiset(FilterOrder);
    }
  }

  /** So the menu's test lets every name of `filter_order` through. */
  lemma OrderOffered()
    ensures forall i :: 0 <= i < |FilterOrder| ==> Offered()(FilterOrder[i])
  {
    OrderWithinKeys();
    PresetOrderNames();
    forall i | 0 <= i < |FilterOrder| ensures Offered()(FilterOrder[i]) {
      assert FilterOrder[i] in FilterOrder;
    }
  }

  /** The menu offers exactly the presets other than "reset", in the order of `filter_order`,
      each once. */
  lemma MenuOffersEveryPreset()
    ensures Available() == FilterOrder
    ensures multiset(Available()) == multiset(PresetKeys())
  {
    OrderOffered();
    FilterKeepsAll(FilterOrder, Offered());
    OrderIsKeys();
  }

  /** `filter_order` holds the preset keys other than "reset", each once. */
  lemma OrderIsKeys()
    ensures multiset(FilterOrder) == multiset(PresetKeys())
  {
    OrderHoldsKeys();
    PresetKeysCount();
  }

  // ---------------------------------------------------------------------------------------
  // The paged filter menu
  // ---------------------------------------------------------------------------------------

  /** Python's `s[start:end]` for non-negative bounds: bounds past the end stop at the end. */
  function Slice<T>(s: seq<T>, start: nat, end: nat): (r: seq<T>)
    ensures start <= end <= |s| ==> r == s[start..end]
    ensures end <= start || |s| <= start ==> r == []
    ensures start <= |s| <= end ==> r == s[start..]
    ensures forall x :: x in r ==> x in s
  {
    var a := if start < |s| then start else |s|;
    var b := if end < |s| then end else |s|;
    if a <= b then s[a..b] else []
  }

  /** The page `page` of `available` holds the names at `page * size` up to
      `page * size + size`. */
  function PageOf<T>(s: seq<T>, page: nat, size: nat): seq<T>
  {
    Slice(s, page * size, page * size + size)
  }

  /** `max(1, (n + size - 1) // size)`: the pages `n` names need, and one page when there are
      none. */
  function PageCount(n: nat, size: nat): (pages: nat)
    requires size > 0
    ensures pages >= 1
    ensures n > 0 ==> (pages - 1) * size < n <= pages * size
  {
    var c := (n + size - 1) / size;
    assert c * size <= n + size - 1 < c * size + size;
    if c < 1 then 1 else c
  }

  /** The first `count` pages, one after the other. */
  function PagesUpTo<T>(s: seq<T>, size: nat, count: nat): seq<T>
  {
    if count == 0 then [] else PagesUpTo(s, size, count - 1) + PageOf(s, count - 1, size)
  }

  /** The first `count` pages are the first `count * size` names. */
  lemma {:induction false} PagesUpToPrefix<T>(s: seq<T>, size: nat, count: nat)
    ensures PagesUpTo(s, size, count) == s[..if count * size < |s| then count * size else |s|]
  {
    if count > 0 {
      PagesUpToPrefix(s, size, count - 1);
      var before := (count - 1) * size;
      assert count * size == before + size;
    }
  }

  /** Paging loses and repeats nothing: the pages up to the page count, read in order, are the
      whole list; every one of them has a name when the list has any, and the pages after them
      are empty. */
  lemma PagesPartition<T>(s: seq<T>, size: nat)
    requires size > 0
    ensures PagesUpTo(s, size, PageCount(|s|, size)) == s
    ensures |s| > 0 ==> forall page: nat :: page < PageCount(|s|, size) ==> PageOf(s, page, size) != []
    ensures forall page: nat :: page >= PageCount(|s|, size) ==> PageOf(s, page, size) == []
  {
    var pages := PageCount(|s|, size);
    PagesUpToPrefix(s, size, pages);
    if |s| > 0 {
      forall page: nat | page < pages ensures PageOf(s, page, size) != [] {
        PageWithin(s, size, page);
      }
    }
    forall page: nat | page >= pages ensures PageOf(s, page, size) == [] {
      PageBeyond(s, size, page);
    }
  }

  lemma PageWithin<T>(s: seq<T>, size: nat, page: nat)
    requires size > 0 && |s| > 0 && page < PageCount(|s|, size)
    ensures PageOf(s, page, size) != []
  {
    var pages := PageCount(|s|, size);
    MulMono(page, pages - 1, size);
    var start := page * size;
    assert start < |s|;
    var end := if start + size < |s| then start + size else |s|;
    assert PageOf(s, page, size) == s[start..end];
  }

  lemma PageBeyond<T>(s: seq<T>, size: nat, page: nat)
    requires size > 0 && page >= PageCount(|s|, size)
    ensures PageOf(s, page, size) == []
  {
    var pages := PageCount(|s|, size);
    MulMono(pages, page, size);
    assert page * size >= |s|;
  }

  lemma {:induction false} MulMono(a: nat, b: nat, c: nat)
    requires a <= b
    ensures a * c <= b * c
    decreases b - a
  {
    if a < b {
      MulMono(a, b - 1, c);
      assert (b - 1) * c + c == b * c;
    }
  }

  /** A `discord.SelectOption` of the filter menu. */
  datatype SelectOption = SelectOption(caption: string, value: string, description: string)

  /** `[:50]`: at most the first 50 characters. */
  function Truncate(s: string, n: nat): (r: string)
    ensures |r| <= n && r <= s
    ensures |s| <= n ==> r == s
  {
    if |s| <= n then s else s[..n]
  }

  /** The option of one preset name: the capitalised name, the name, and the preset's
      description cut to 50 characters. */
  function OptionOf(name: string): SelectOption
  {
    var description := match FindPreset(FilterPresets, name)
      case Some(p) => p.description
      case None => "";
    SelectOption(Capitalize(name), name, Truncate(description, 50))
  }

  /** `get_filter_options(page, page_size)`. */
  function FilterOptions(page: nat, pageSize: nat): (options: seq<SelectOption>)
    ensures |options| == |PageOf(Available(), page, pageSize)|
    ensures forall i :: 0 <= i < |options| ==> options[i] == OptionOf(PageOf(Available(), page, pageSize)[i])
  {
    var names := PageOf(Available(), page, pageSize);
    seq(|names|, i requires 0 <= i < |names| => OptionOf(names[i]))
  }

  /** Every option names an offered preset, has its capitalised name as its label and carries
      at most 50 characters of the preset's own description. */
  lemma OptionsDescribePresets(page: nat, pageSize: nat)
    ensures forall o :: o in FilterOptions(page, pageSize) ==>
              o.value in FilterOrder && o.value != "reset" && o.caption == Capitalize(o.value) &&
              FindPreset(FilterPresets, o.value).Some? &&
              |o.description| <= 50 && o.description <= FindPreset(FilterPresets, o.value).value.description
  {
    var names := PageOf(Available(), page, pageSize);
    FilterMembers(FilterOrder, Offered());
    forall o | o in FilterOptions(page, pageSize)
      ensures o.value in FilterOrder && o.value != "reset" && FindPreset(FilterPresets, o.value).Some?
    {
      var i :| 0 <= i < |names| && o == OptionOf(names[i]);
      assert names[i] in names;
    }
  }

  /** `get_total_filter_pages(page_size)`: the pages the preset keys other than "reset" need. */
  function TotalFilterPages(pageSize: nat): (pages: nat)
    requires pageSize > 0
    ensures pages >= 1
  {
    PageCount(|PresetKeys()|, pageSize)
  }

  /** With the default page size of 25 the 53 presets take three pages, and the menu has as
      many names as the count of `get_total_filter_pages`. */
  lemma FilterPageTotal()
    ensures TotalFilterPages(25) == 3
    ensures |Available()| == |PresetKeys()|
  {
    PresetKeysCount();
    MenuOffersEveryPreset();
    assert |Available()| == |multiset(Available())|;
  }

  /** The pages the button cycles through are exactly the pages of the menu: each has options
      and together they offer every preset once. */
  lemma FilterPagesAgree()
    ensures TotalFilterPages(25) == PageCount(|Available()|, 25)
    ensures PagesUpTo(Available(), 25, TotalFilterPages(25)) == FilterOrder
    ensures forall page: nat :: page < TotalFilterPages(25) ==> FilterOptions(page, 25) != []
    ensures forall page: nat :: page >= TotalFilterPages(25) ==> FilterOptions(page, 25) == []
  {
    FilterPageTotal();
    MenuOffersEveryPreset();
    PagesPartition(Available(), 25);
  }

  /** The filter page button: the next page, back to the first after the last. */
  function NextFilterPage(page: nat, total: nat): (next: nat)
    requires total > 0
    ensures next < total
    ensures page + 1 < total ==> next == page + 1
    ensures page + 1 == total ==> next == 0
  {
    (page + 1) % total
  }

  /** The page after pressing the button `presses` times. */
  function Pressed(page: nat, total: nat, presses: nat): (p: nat)
    requires total > 0 && page < total
    ensures p < total
  {
    if presses == 0 then page else NextFilterPage(Pressed(page, total, presses - 1), total)
  }

  /** Up to `total` presses move forward one page at a time, wrapping once past the last page;
      `total` presses come back to the page they started from. */
  lemma {:induction false} FilterPageCycle(page: nat, total: nat, presses: nat)
    requires total > 0 && page < total && presses <= total
    ensures Pressed(page, total, presses) ==
            if page + presses < total then page + presses else page + presses - total
  {
    if presses > 0 {
      FilterPageCycle(page, total, presses - 1);
    }
  }

  // ---------------------------------------------------------------------------------------
  // Applying a preset
  // ---------------------------------------------------------------------------------------

  /** The `ValueError` raised for a name that is not a preset. */
  datatype FilterError = UnknownPreset(preset: string)

  /** The preset `apply_filter_preset` applies for what it was given: the trimmed, lower-cased
      name when it is a key of `FILTER_PRESETS` (whose keys are `PresetOrder`, as
      `PresetOrderNames` shows). */
  function PresetChoice(preset: string): (r: Result<string, FilterError>)
    ensures r.Success? <==> Normalise(preset) in PresetOrder
    ensures r.Success? ==> r.value == Normalise(preset)
    ensures r.Failure? ==> r.error == UnknownPreset(Normalise(preset))
  {
    var name := Normalise(preset);
    if name in PresetOrder then Success(name) else Failure(UnknownPreset(name))
  }

  /** Every preset name is plain lower-case letters and digits. */
  lemma PresetNamesPlain()
    ensures forall x :: x in PresetOrder ==> Plain(x)
  {
    OffPlain();
    QualityPlain();
    BassMixPlain();
    PitchPlain();
    BassPlain();
    SpeedPlain();
    AestheticPlain();
    SpatialPlain();
    ModulationPlain();
    VocalPlain();
    GenrePlain();
    FunPlain();
    assert Plain("reset");
  }

  lemma OffPlain()
    ensures forall x :: x in OffOrder ==> Plain(x)
  {
  }

  lemma QualityPlain()
    ensures forall x :: x in QualityOrder ==> Plain(x)
  {
  }

  lemma BassMixPlain()
    ensures forall x :: x in BassMixOrder ==> Plain(x)
  {
  }

  lemma PitchPlain()
    ensures forall x :: x in PitchOrder ==> Plain(x)
  {
  }

  lemma BassPlain()
    ensures forall x :: x in BassOrder ==> Plain(x)
  {
  }

  lemma SpeedPlain()
    ensures forall x :: x in SpeedOrder ==> Plain(x)
  {
  }

  lemma AestheticPlain()
    ensures forall x :: x in AestheticOrder ==> Plain(x)
  {
  }

  lemma SpatialPlain()
    ensures forall x :: x in SpatialOrder ==> Plain(x)
  {
  }

  lemma ModulationPlain()
    ensures forall x :: x in ModulationOrder ==> Plain(x)
  {
  }

  lemma VocalPlain()
    ensures forall x :: x in VocalOrder ==> Plain(x)
  {
  }

  lemma GenrePlain()
    ensures forall x :: x in GenreOrder ==> Plain(x)
  {
  }

  lemma FunPlain()
    ensures forall x :: x in FunOrder ==> Plain(x)
  {
  }

  /** A name is accepted exactly when, trimmed and lower-cased, it is one of the presets, and
      applying the accepted name again chooses the same preset. */
  lemma PresetChoiceStable(preset: string)
    ensures PresetChoice(preset).Success? <==> FindPreset(FilterPresets, Normalise(preset)).Some?
    ensures PresetChoice(preset).Success? ==>
              PresetChoice(PresetChoice(preset).value) == PresetChoice(preset)
  {
    PresetOrderNames();
    NormaliseIdempotent(preset);
  }

  /** Every option of the menu, when chosen, applies the preset it names. */
  lemma OptionsApply(page: nat, pageSize: nat)
    ensures forall o :: o in FilterOptions(page, pageSize) ==> PresetChoice(o.value) == Success(o.value)
  {
    OptionsDescribePresets(page, pageSize);
    OrderWithinKeys();
    PresetNamesPlain();
    forall o | o in FilterOptions(page, pageSize) ensures PresetChoice(o.value) == Success(o.value) {
      PlainNormalised(o.value);
    }
  }

  /** "off" and "reset" clear every filter; any other preset sets its own. */
  function FiltersFor(name: string): (f: Filters)
    ensures f == NoFilters <==> name == "off" || name == "reset"
    ensures f != NoFilters ==> f == PresetFilters(name)
  {
    if name == "off" || name == "reset" then NoFilters else PresetFilters(name)
  }

  /** The `filters_preset` saved for an applied preset: "reset" is saved as "off". */
  function StoredPreset(name: string): (stored: string)
    ensures stored != "reset"
    ensures name != "reset" ==> stored == name
  {
    if name == "off" || name == "reset" then "off" else name
  }

  /** The saved name is itself a preset, the menu accepts it, and applying it again gives the
      filters the first application gave. */
  lemma StoredPresetReapplies(name: string)
    requires name in PresetOrder
    ensures StoredPreset(name) in PresetOrder
    ensures PresetChoice(StoredPreset(name)) == Success(StoredPreset(name))
    ensures FiltersFor(StoredPreset(name)) == FiltersFor(name)
  {
    PresetNamesPlain();
    PlainNormalised(StoredPreset(name));
  }

  /** The guild record after a preset is saved into it. */
  function WithPreset(s: GuildSettings, name: string): (t: GuildSettings)
    ensures t.filtersPreset == StoredPreset(name)
    ensures t == s.(filtersPreset := t.filtersPreset)
  {
    s.(filtersPreset := StoredPreset(name))
  }

  /** `apply_filter_preset(bot, player, preset)` when the node accepts the filters: an unknown
      name raises and changes nothing; a known one sets the player's filters, saves the name in
      the guild's settings (through `get`, which creates the record when missing) and upserts
      them when the bot has a storage. `persisted` says whether the upsert went through; a
      failed one is swallowed. */
  method ApplyFilterPreset(p: Player, store: GuildSettingsStore, storage: Storage.SqliteStorage?,
                           guildId: Option<int>, preset: string, persisted: bool)
    returns (r: Result<string, FilterError>)
    requires storage != null ==> storage.Valid()
    modifies p, store, storage
    ensures storage != null ==> storage.Valid()
    ensures r == PresetChoice(preset)
    ensures r.Failure? ==> unchanged(p) && unchanged(store) && (storage != null ==> unchanged(storage))
    ensures r.Success? ==> p.filters == FiltersFor(r.value)
    ensures unchanged(p`queue, p`mode, p`autoplay, p`volume, p`current, p`position)
    ensures unchanged(p`paused, p`channel, p`inactiveTimeout)
    ensures r.Success? && guildId.Some? ==>
      var saved := WithPreset(Lookup(old(store.data), guildId.value, store.Created()).0, r.value);
      store.data == old(store.data)[guildId.value := saved] &&
      (storage != null ==>
         if persisted then storage.settings == old(storage.settings)[guildId.value := Storage.ToRow(saved)]
         else unchanged(storage))
    ensures r.Success? && guildId.None? ==> unchanged(store) && (storage != null ==> unchanged(storage))
  {
    r := PresetChoice(preset);
    if r.Failure? {
      return;
    }
    var name := r.value;
    p.SetFilters(FiltersFor(name));
    if guildId.None? {
      return;
    }
    var g := guildId.value;
    var settings := store.Get(g);
    settings := WithPreset(settings, name);
    store.Set(g, settings);
    if storage != null && persisted {
      storage.UpsertGuildSettings(g, settings);
    }
  }
}
