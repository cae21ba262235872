/** The icon picker
    (frontend/src/app/components/icon-selector/icon-selector.component.ts): the
    dialog that filters Material icons, classifies the current icon, selects
    icons and uploads SVG files, and the field component that shows the chosen
    value with its label.  `btoa`/`atob` and `toLowerCase` are parameters. */
module IconSelector {
  import opened Text
  import Home

  datatype IconKind = Material | Svg

  /** `IconOption` */
  datatype IconOption = IconOption(name: string, kind: IconKind, value: string, svg: Option<string>)

  /** An entry of `customSvgIcons`. */
  datatype CustomIcon = CustomIcon(name: string, url: string, svg: Option<string>)

  /** What the file input reports of a chosen file. */
  datatype SvgFile = SvgFile(name: string, mimeType: string)

  /** The answer of the SVG upload. */
  datatype UploadResponse = UploadResponse(url: string, svg: string)

  const MaterialIcons: seq<string> := [
    "architecture", "engineering", "business", "verified", "design_services",
    "build", "handshake", "star", "check_circle", "workspace_premium",
    "construction", "home_work", "apartment", "domain", "foundation",
    "roofing", "carpenter", "plumbing", "electrical_services", "hvac",
    "security", "shield", "health_and_safety", "support_agent", "headset_mic",
    "phone", "email", "schedule", "timer", "speed", "trending_up",
    "assessment", "analytics", "insights", "lightbulb", "innovation",
    "eco", "energy_savings_leaf", "recycling", "solar_power", "water_drop",
    "favorite", "thumb_up", "celebration", "emoji_events", "workspace_premium"]

  const DataSvgPrefix := "data:image/svg+xml;base64,"

  predicate IsUrl(value: string) {
    StartsWith(value, "http") || StartsWith(value, "/")
  }

  /** The search: the icon contains the term, both lower-cased. */
  function MatchesTerm(lower: string -> string, term: string): string -> bool {
    icon => Contains(lower(icon), lower(term))
  }

  /** The selection `ngOnInit` makes from the current icon. */
  function InitialSelection(currentIcon: string): (r: Option<IconOption>)
    ensures currentIcon == "" <==> r.None?
    ensures r.Some? ==> r.value.value == currentIcon && (r.value.kind == Svg <==> IsUrl(currentIcon))
    ensures r.Some? && r.value.kind == Material ==> r.value.name == currentIcon
  {
    if currentIcon == "" then None
    else if IsUrl(currentIcon) then Some(IconOption("Custom Icon", Svg, currentIcon, None))
    else Some(IconOption(currentIcon, Material, currentIcon, None))
  }

  /** The name an uploaded file gets: its file name without the first ".svg". */
  function IconName(f: SvgFile): string {
    ReplaceFirst(f.name, ".svg", "")
  }

  class Dialog {
    const currentIcon: string
    const materialIcons: seq<string>
    var searchTerm: string
    var filteredMaterialIcons: seq<string>
    var selectedIcon: Option<IconOption>
    var selectedSvgFile: Option<SvgFile>
    var svgPreview: string
    var customSvgIcons: seq<CustomIcon>

    constructor(currentIcon: string)
      ensures this.currentIcon == currentIcon && materialIcons == MaterialIcons
      ensures searchTerm == "" && filteredMaterialIcons == materialIcons
      ensures selectedIcon.None? && selectedSvgFile.None? && svgPreview == "" && customSvgIcons == []
    {
      this.currentIcon := currentIcon;
      materialIcons := MaterialIcons;
      searchTerm := "";
      filteredMaterialIcons := MaterialIcons;
      selectedIcon := None;
      selectedSvgFile := None;
      svgPreview := "";
      customSvgIcons := [];
    }

    /** `ngOnInit`: a current icon that is a URL or a path is selected as an
        SVG, any other non-empty one as a Material icon of that name; the custom
        list starts empty. */
    method OnInit()
      modifies this
      ensures currentIcon != "" ==> selectedIcon == InitialSelection(currentIcon)
      ensures currentIcon == "" ==> selectedIcon == old(selectedIcon)
      ensures customSvgIcons == []
      ensures searchTerm == old(searchTerm) && filteredMaterialIcons == old(filteredMaterialIcons)
      ensures selectedSvgFile == old(selectedSvgFile) && svgPreview == old(svgPreview)
    {
      if currentIcon != "" {
        if StartsWith(currentIcon, "http") || StartsWith(currentIcon, "/") {
          selectedIcon := Some(IconOption("Custom Icon", Svg, currentIcon, None));
        } else {
          selectedIcon := Some(IconOption(currentIcon, Material, currentIcon, None));
        }
      }
      customSvgIcons := [];
    }

    /** `filterIcons`: the whole list for an empty term, otherwise exactly the
        icons containing the term, whatever the letter case, in list order. */
    method FilterIcons(lower: string -> string)
      modifies this
      ensures searchTerm == "" ==> filteredMaterialIcons == materialIcons
      ensures searchTerm != "" ==> filteredMaterialIcons == Filter(materialIcons, MatchesTerm(lower, searchTerm))
      ensures searchTerm != "" ==> forall icon :: icon in filteredMaterialIcons <==>
                icon in materialIcons && Contains(lower(icon), lower(searchTerm))
      ensures searchTerm == old(searchTerm) && selectedIcon == old(selectedIcon) && customSvgIcons == old(customSvgIcons)
      ensures selectedSvgFile == old(selectedSvgFile) && svgPreview == old(svgPreview)
    {
      if searchTerm == "" {
        filteredMaterialIcons := materialIcons;
      } else {
        filteredMaterialIcons := Filter(materialIcons, MatchesTerm(lower, searchTerm));
        FilterMembers(materialIcons, MatchesTerm(lower, searchTerm));
      }
    }

    /** `selectMaterialIcon` */
    method SelectMaterialIcon(iconName: string)
      modifies this
      ensures selectedIcon == Some(IconOption(iconName, Material, iconName, None))
      ensures searchTerm == old(searchTerm) && filteredMaterialIcons == old(filteredMaterialIcons)
      ensures customSvgIcons == old(customSvgIcons) && selectedSvgFile == old(selectedSvgFile) && svgPreview == old(svgPreview)
    {
      selectedIcon := Some(IconOption(iconName, Material, iconName, None));
    }

    /** `selectCustomIcon` */
    method SelectCustomIcon(customIcon: CustomIcon)
      modifies this
      ensures selectedIcon == Some(IconOption(customIcon.name, Svg, customIcon.url, customIcon.svg))
      ensures searchTerm == old(searchTerm) && filteredMaterialIcons == old(filteredMaterialIcons)
      ensures customSvgIcons == old(customSvgIcons) && selectedSvgFile == old(selectedSvgFile) && svgPreview == old(svgPreview)
    {
      selectedIcon := Some(IconOption(customIcon.name, Svg, customIcon.url, customIcon.svg));
    }

    /** `onSvgFileSelected`, with the file reader's text passed in: only an
        `image/svg+xml` file is taken, and its text becomes the preview. */
    method OnSvgFileSelected(file: Option<SvgFile>, text: string)
      modifies this
      ensures file.Some? && file.value.mimeType == "image/svg+xml" ==> selectedSvgFile == file && svgPreview == text
      ensures !(file.Some? && file.value.mimeType == "image/svg+xml") ==>
                selectedSvgFile == old(selectedSvgFile) && svgPreview == old(svgPreview)
      ensures selectedIcon == old(selectedIcon) && customSvgIcons == old(customSvgIcons)
      ensures searchTerm == old(searchTerm) && filteredMaterialIcons == old(filteredMaterialIcons)
    {
      if file.Some? && file.value.mimeType == "image/svg+xml" {
        selectedSvgFile := file;
        svgPreview := text;
      }
    }

    /** `uploadSvg`, with the upload's answer passed in (`None` on error) and
        `btoa` as `encode`: nothing without a file and a preview; on success
        the uploaded icon is selected and appended to the custom icons, on
        error the preview is selected as a data URI. */
    method UploadSvg(response: Option<UploadResponse>, encode: string -> string)
      modifies this
      ensures (old(selectedSvgFile).None? || old(svgPreview) == "") ==>
                selectedIcon == old(selectedIcon) && customSvgIcons == old(customSvgIcons)
      ensures old(selectedSvgFile).Some? && old(svgPreview) != "" && response.Some? ==>
                var svg := if response.value.svg != "" then response.value.svg else old(svgPreview);
                var name := IconName(old(selectedSvgFile).value);
                selectedIcon == Some(IconOption(name, Svg, response.value.url, Some(svg)))
                && customSvgIcons == old(customSvgIcons) + [CustomIcon(name, response.value.url, Some(svg))]
      ensures old(selectedSvgFile).Some? && old(svgPreview) != "" && response.None? ==>
                selectedIcon == Some(IconOption(IconName(old(selectedSvgFile).value), Svg,
                                                DataSvgPrefix + encode(old(svgPreview)), Some(old(svgPreview))))
                && customSvgIcons == old(customSvgIcons)
      ensures selectedSvgFile == old(selectedSvgFile) && svgPreview == old(svgPreview)
      ensures searchTerm == old(searchTerm) && filteredMaterialIcons == old(filteredMaterialIcons)
    {
      if selectedSvgFile.None? || svgPreview == "" {
        return;
      }
      var name := IconName(selectedSvgFile.value);
      if response.Some? {
        var svg := if response.value.svg != "" then response.value.svg else svgPreview;
        var icon := IconOption(name, Svg, response.value.url, Some(svg));
        selectedIcon := Some(icon);
        customSvgIcons := customSvgIcons + [CustomIcon(icon.name, icon.value, icon.svg)];
      } else {
        selectedIcon := Some(IconOption(name, Svg, DataSvgPrefix + encode(svgPreview), Some(svgPreview)));
      }
    }
  }

  // ------------------------------------------------------------ the field

  /** `isMatIconUrl` */
  predicate IsMatIconUrl(value: string) {
    !Contains(value, "/") && !Contains(value, "http") && !StartsWith(value, "<svg")
  }

  /** The field's test is the home page's icon test, except that it takes the
      empty value for an icon name. */
  lemma IsMatIconUrlIsHomeTest(value: string)
    ensures Home.IsMatIcon(Some(value)) <==> value != "" && IsMatIconUrl(value)
  {
  }

  /** A path or URL is never shown as a Material icon. */
  lemma UrlIsNotMatIcon(value: string)
    requires IsUrl(value)
    ensures !IsMatIconUrl(value)
  {
    if StartsWith(value, "http") {
      PrefixContains(value, "http");
    } else {
      PrefixContains(value, "/");
    }
  }

  /** `InitialSelection` and the field disagree on a relative path without a
      leading '/': the one takes it for a Material icon, the other does not.
      As the dialog is opened, its `currentIcon` is never set, so the
      preselection, and with it this disagreement, is not reached. */
  lemma MaterialSelectionNotShown()
    ensures var v := "icons/star.svg";
            InitialSelection(v).value.kind == Material && !IsMatIconUrl(v)
  {
    var v := "icons/star.svg";
    assert !IsUrl(v) by { assert v[0] == 'i'; }
    assert OccursAt(v, "/", 5);
    ContainsIff(v, "/");
  }

  /** `split(c)[1]`, which is `undefined` (printed "undefined") when there is
      no second piece. */
  function SecondPiece(s: string, c: char): string {
    var parts := Split(s, c);
    if |parts| > 1 then parts[1] else "undefined"
  }

  /** The last piece of `split(c)`, as `pop()` gives it. */
  function LastPiece(s: string, c: char): string {
    var parts := Split(s, c);
    parts[|parts| - 1]
  }

  /** `getSvgContent`, with `atob` as `decode`: a data URI is decoded from the
      text after its first ','; a URL or path gives ''; anything else is taken
      for inline SVG. */
  function SvgContent(iconValue: string, decode: string -> string): (r: string)
    ensures StartsWith(iconValue, "data:image/svg+xml") ==> r == decode(SecondPiece(iconValue, ','))
    ensures !StartsWith(iconValue, "data:image/svg+xml") && IsUrl(iconValue) ==> r == ""
    ensures !StartsWith(iconValue, "data:image/svg+xml") && !IsUrl(iconValue) ==> r == iconValue
  {
    if StartsWith(iconValue, "data:image/svg+xml") then decode(SecondPiece(iconValue, ','))
    else if IsUrl(iconValue) then ""
    else iconValue
  }

  /** `getIconLabel`: an icon name is its own label; a URL or path is labelled
      by its file name without ".svg"; anything else is 'Custom SVG'. */
  function IconLabel(iconValue: string): (r: string)
    ensures IsMatIconUrl(iconValue) ==> r == iconValue
    ensures !IsMatIconUrl(iconValue) && !IsUrl(iconValue) ==> r == "Custom SVG"
  {
    if IsMatIconUrl(iconValue) then iconValue
    else if IsUrl(iconValue) then
      var last := LastPiece(iconValue, '/');
      ReplaceFirst(if last != "" then last else "Custom SVG", ".svg", "")
    else "Custom SVG"
  }

  /** An uploaded icon `dir/name.svg` is labelled `name`. */
  lemma UrlLabel(dir: string, name: string)
    requires IsUrl(dir) && '/' !in name && !Contains(name, ".svg")
    ensures IconLabel(dir + "/" + name + ".svg") == name
  {
    var v := dir + "/" + name + ".svg";
    assert v == dir + ['/'] + (name + ".svg");
    assert IsUrl(v) by { assert v[..|dir|] == dir; }
    UrlIsNotMatIcon(v);
    SplitLast(dir, name + ".svg", '/');
    assert LastPiece(v, '/') == name + ".svg";
    StripSvg(name);
  }

  /** The local preview survives the trip through a data URI: the field shows
      the SVG text the dialog encoded, when decoding undoes encoding and the
      encoding holds no ','. */
  lemma LocalPreviewRoundTrip(svg: string, encode: string -> string, decode: string -> string)
    requires decode(encode(svg)) == svg && ',' !in encode(svg)
    ensures SvgContent(DataSvgPrefix + encode(svg), decode) == svg
  {
    var e := encode(svg);
    var v := DataSvgPrefix + e;
    assert StartsWith(v, "data:image/svg+xml") by { assert v[..18] == DataSvgPrefix[..18]; }
    assert v == DataSvgPrefix[..25] + [','] + e;
    SplitOne(e, ',');
    FirstSplit(DataSvgPrefix[..25], e, ',');
  }

  // ------------------------------------------------------------ split and replace helpers

  /** The last piece of `a + [c] + b` is `b` when `b` holds no separator. */
  lemma {:induction false} SplitLast(a: string, b: string, c: char)
    requires c !in b
    ensures LastPiece(a + [c] + b, c) == b
    decreases |a|
  {
    var s := a + [c] + b;
    assert OccursAt(s, [c], |a|) by { assert s[|a|..|a| + 1] == [c]; }
    var i := FindFrom(s, [c], 0).value;
    assert i <= |a|;
    assert s[i..i + 1] == [c];
    if i == |a| {
      assert s[i + 1..] == b;
      SplitOne(b, c);
    } else {
      var a' := a[i + 1..];
      assert s[i + 1..] == a' + [c] + b;
      SplitLast(a', b, c);
    }
  }

  /** Removing the first ".svg" from `name + ".svg"` leaves `name` when `name`
      holds none. */
  lemma StripSvg(name: string)
    requires !Contains(name, ".svg")
    ensures ReplaceFirst(name + ".svg", ".svg", "") == name
  {
    var s := name + ".svg";
    assert OccursAt(s, ".svg", |name|);
    ContainsIff(name, ".svg");
    // no match starts inside `name`: one that fits would be in `name`, and one
    // overlapping the suffix would need the suffix's '.' at its position 1, 2 or 3
    forall j | 0 <= j < |name| ensures !OccursAt(s, ".svg", j) {
      if j + 4 <= |name| {
        assert s[j..j + 4] == name[j..j + 4] && !OccursAt(name, ".svg", j);
      } else {
        assert s[j..j + 4][|name| - j] == '.' && ".svg"[|name| - j] != '.';
      }
    }
    assert s[..|name|] == name;
  }
}
