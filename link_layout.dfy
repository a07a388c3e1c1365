/**
 * The profile link list of src/components/linklayout.tsx: the display-title
 * resolver, the choice among the four layouts and the per-link entries each
 * layout shows. Markup and styling are reduced to the data each entry shows.
 */
module LinkLayout {
  import opened Wrappers
  import opened JsString
  import opened SnsUrls

  /** One link record; `linkType` is the type tag ("instagram", "custom", ...). */
  datatype Link = Link(id: string, url: string, title: Option<string>, image: string, linkType: string)

  const Custom: string := "custom"

  /** The title wins when it is present and not blank. */
  predicate HasUsableTitle(title: Option<string>) {
    title.Some? && !IsBlank(title.value)
  }

  /**
   * getDisplayTitle. A usable title is shown exactly as written; otherwise a
   * custom link shows its whole URL; otherwise the URL loses the first
   * occurrence of its platform's base URL and what is left is shown, as it
   * is, unless it is blank, in which case the type tag is shown. The text
   * shown is blank only for a custom link with a blank URL or for a blank
   * type tag.
   */
  function DisplayTitle(title: Option<string>, url: string, linkType: string): (r: string)
    ensures HasUsableTitle(title) ==> r == title.value
    ensures !HasUsableTitle(title) && linkType == Custom ==> r == url
    ensures !HasUsableTitle(title) && linkType != Custom ==> r == linkType || !IsBlank(r)
    ensures IsBlank(r) ==> if linkType == Custom then r == url && IsBlank(url) else r == linkType
  {
    if title.Some? && Trim(title.value) != "" then
      title.value
    else if linkType == Custom then
      url
    else
      var username := RemoveFirst(url, SnsUrl(linkType));
      if Trim(username) != "" then username else linkType
  }

  /**
   * When the platform's base URL occurs in the URL, the text shown is the URL
   * with its first occurrence cut out (later ones stay, surrounding text is
   * not trimmed), or the type tag when that is blank.
   */
  lemma CutsFirstBaseOccurrence(title: Option<string>, url: string, linkType: string, i: nat)
    requires !HasUsableTitle(title) && linkType != Custom
    requires IsFirstOccurrence(url, SnsUrl(linkType), i)
    ensures var rest := url[..i] + url[i + |SnsUrl(linkType)|..];
            DisplayTitle(title, url, linkType) == if IsBlank(rest) then linkType else rest
  {
    var base := SnsUrl(linkType);
    assert RemoveFirst(url, base) == url[..i] + url[i + |base|..];
  }

  /**
   * A URL the base URL does not occur in, or any URL of a type without a base
   * URL, is shown whole, unless it is blank.
   */
  lemma KeepsUrlWithoutBase(title: Option<string>, url: string, linkType: string)
    requires !HasUsableTitle(title) && linkType != Custom
    requires !Contains(url, SnsUrl(linkType)) || !IsSnsType(linkType)
    ensures DisplayTitle(title, url, linkType) == if IsBlank(url) then linkType else url
  {
  }

  /** A profile URL, base URL followed by a handle, shows the handle untrimmed. */
  lemma ProfileUrlShowsHandle(title: Option<string>, linkType: string, handle: string)
    requires !HasUsableTitle(title) && IsSnsType(linkType)
    requires !IsBlank(handle)
    ensures DisplayTitle(title, SnsUrl(linkType) + handle, linkType) == handle
  {
    RemoveFirstOfPrefix(SnsUrl(linkType), handle);
  }

  /** A bare base URL, perhaps with blank text after it, shows the type tag. */
  lemma BareBaseUrlShowsType(title: Option<string>, linkType: string, tail: string)
    requires !HasUsableTitle(title) && linkType != Custom
    requires IsBlank(tail)
    ensures DisplayTitle(title, SnsUrl(linkType) + tail, linkType) == linkType
  {
    RemoveFirstOfPrefix(SnsUrl(linkType), tail);
  }

  /** The four layouts the page can show. */
  datatype Layout = BgColsList | GridList | OnlyLogoList | ColsList

  /**
   * The layout choice of renderLayoutComponent: 1 to 4 pick the carded
   * column, the two-column grid, the logo-only grid and the plain column;
   * an unset layout and every other number give None, the prompt to choose
   * a layout.
   */
  function SelectLayout(layout: Option<int>): (r: Option<Layout>)
    ensures r == Some(BgColsList) <==> layout == Some(1)
    ensures r == Some(GridList) <==> layout == Some(2)
    ensures r == Some(OnlyLogoList) <==> layout == Some(3)
    ensures r == Some(ColsList) <==> layout == Some(4)
    ensures r == None <==> layout.None? || layout.value !in {1, 2, 3, 4}
  {
    if layout == Some(1) then Some(BgColsList)
    else if layout == Some(2) then Some(GridList)
    else if layout == Some(3) then Some(OnlyLogoList)
    else if layout == Some(4) then Some(ColsList)
    else None
  }

  /**
   * What one link shows: an anchor keyed by the link id and pointing at its
   * URL, its image with the raw title as alternative text, and a caption.
   */
  datatype Entry = Entry(key: string, href: string, image: string, alt: Option<string>, caption: Option<string>)

  function LinkEntry(link: Link, captioned: bool): Entry {
    Entry(link.id, link.url, link.image, link.title,
          if captioned then Some(DisplayTitle(link.title, link.url, link.linkType)) else None)
  }

  /**
   * `links.map(...)` in a layout: one entry per link, in the order of the
   * links, each showing that link's URL, id, image and title, and captioned
   * with its display title exactly when the layout shows titles.
   */
  function Entries(links: seq<Link>, captioned: bool): (es: seq<Entry>)
    ensures |es| == |links|
    ensures forall k :: 0 <= k < |links| ==>
              es[k].key == links[k].id && es[k].href == links[k].url &&
              es[k].image == links[k].image && es[k].alt == links[k].title
    ensures forall k :: 0 <= k < |links| ==>
              es[k].caption == if captioned then Some(DisplayTitle(links[k].title, links[k].url, links[k].linkType)) else None
  {
    if links == [] then [] else [LinkEntry(links[0], captioned)] + Entries(links[1..], captioned)
  }

  /** What the link list renders: a layout with its entries, or the prompt to choose one. */
  datatype View = Shown(layout: Layout, entries: seq<Entry>) | ChooseLayoutPrompt

  /**
   * renderLayoutComponent: the prompt exactly when no layout is selected;
   * otherwise the selected layout with one entry per link, in order, each
   * showing that link's id, URL, image and title, and captioned with its
   * display title exactly when the layout is not the logo-only one.
   */
  function RenderLayout(layout: Option<int>, links: seq<Link>): (v: View)
    ensures v == ChooseLayoutPrompt <==> SelectLayout(layout).None?
    ensures v.Shown? ==> Some(v.layout) == SelectLayout(layout) && |v.entries| == |links|
    ensures v.Shown? ==> forall k :: 0 <= k < |links| ==>
              v.entries[k].key == links[k].id && v.entries[k].href == links[k].url &&
              v.entries[k].image == links[k].image && v.entries[k].alt == links[k].title
    ensures v.Shown? ==> forall k :: 0 <= k < |links| ==>
              v.entries[k].caption ==
                if layout != Some(3) then Some(DisplayTitle(links[k].title, links[k].url, links[k].linkType)) else None
  {
    match SelectLayout(layout)
    case None => ChooseLayoutPrompt
    case Some(l) => Shown(l, Entries(links, l != OnlyLogoList))
  }

  /**
   * The three captioned layouts show the same entries, and the logo-only
   * layout shows those entries without their captions.
   */
  lemma {:induction false} LayoutsShareEntries(links: seq<Link>)
    ensures RenderLayout(Some(1), links).entries == RenderLayout(Some(2), links).entries
    ensures RenderLayout(Some(1), links).entries == RenderLayout(Some(4), links).entries
    ensures var captioned := RenderLayout(Some(1), links).entries;
            RenderLayout(Some(3), links).entries == seq(|captioned|, k requires 0 <= k < |captioned| => captioned[k].(caption := None))
  {
  }

  /** A blank title falls through: an Instagram profile URL shows the handle. */
  lemma {:induction false} InstagramHandleExample()
    ensures DisplayTitle(Some(" "), "https://www.instagram.com/alice", "instagram") == "alice"
  {
    assert "https://www.instagram.com/alice" == SnsUrl("instagram") + "alice";
    assert !IsTrimmable("alice"[0]);
    ProfileUrlShowsHandle(Some(" "), "instagram", "alice");
  }

  /** A custom link with an empty title shows its whole URL. */
  lemma CustomUrlExample()
    ensures DisplayTitle(Some(""), "https://example.com/me", "custom") == "https://example.com/me"
  {
  }

  /** A real title is shown even where the URL would give a handle. */
  lemma TitleWinsExample()
    ensures DisplayTitle(Some("My Page"), "https://www.facebook.com/my.page", "facebook") == "My Page"
  {
    assert !IsTrimmable("My Page"[0]);
  }

  /** A bare Threads base URL without a title shows the type tag. */
  lemma {:induction false} BareThreadsExample()
    ensures DisplayTitle(None, "https://www.threads.net/", "threads") == "threads"
  {
    assert "https://www.threads.net/" == SnsUrl("threads") + "";
    BareBaseUrlShowsType(None, "threads", "");
  }

  /**
   * The cut is not anchored at the start: a base URL that follows text
   * without an 'h' in it (so without any earlier copy of the base) is cut
   * out of the middle of the URL, and the text around it is shown.
   */
  lemma {:induction false} CutsBaseInsideUrl(title: Option<string>, linkType: string, before: string, after: string)
    requires !HasUsableTitle(title) && IsSnsType(linkType)
    requires 'h' !in before && !IsBlank(before + after)
    ensures DisplayTitle(title, before + SnsUrl(linkType) + after, linkType) == before + after
  {
    var base := SnsUrl(linkType);
    FirstOccurrenceAfter(before, base, after);
    var url := before + base + after;
    assert url[..|before|] + url[|before| + |base|..] == before + after;
    CutsFirstBaseOccurrence(title, url, linkType, |before|);
  }
}
