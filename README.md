# Link list of a link-in-bio profile page, modelled in Dafny

A profile page shows the user's links in one of four layouts. Two pieces of
logic decide what is shown:

- The **display-title resolver** (`getDisplayTitle`) picks the text shown for
  a link. A non-blank title is shown as written. Without one, a custom link
  shows its whole URL. Any other link shows its URL with the first occurrence
  of the platform's base URL cut out. If what is left is blank, it shows the
  type tag. The base URLs come from `getSnsUrl`; `getSnsUrlPlus` is a wider
  version of the same lookup.
- The **layout selector** (`renderLayoutComponent`) maps the stored layout
  number to a layout. 1 is the carded column, 2 the two-column grid, 3 the
  logo-only grid and 4 the plain column. An unset layout and every other
  number show a prompt to choose a layout. Each layout maps the link list in
  order, one entry per link. All layouts but the logo-only one caption each
  entry with its display title.

Modules:

- `Wrappers` (wrappers.dfy): `Option`, for the source's `undefined` and `null`.
- `JsString` (js_string.dfy): the two JavaScript built-ins the resolver uses,
  as ECMA-262 defines them. `Trim` is `String.prototype.trim` (section
  22.1.3.32): it strips the WhiteSpace and LineTerminator code points of
  sections 12.2 and 12.3. `RemoveFirst` is `String.prototype.replace` with a
  string pattern and an empty replacement (section 22.1.3.19). Its search is
  StringIndexOf (section 6.1.4.1), so only the first occurrence is cut, and
  an empty pattern matches at index 0 and changes nothing.
- `SnsUrls` (sns_urls.dfy): `getSnsUrl` and `getSnsUrlPlus` from src/lib/utils.ts.
- `LinkLayout` (link_layout.dfy): the resolver, the layout choice and the
  per-link entries from src/components/linklayout.tsx.

A link type (`LinkType`, `LinkTypePlus`) is its string tag. Their
declarations in src/types/link are not part of this model. The resolver
compares the tag with `"custom"` and can return the tag itself as display
text, so the tag is the natural model.

Two behaviours of `getDisplayTitle` worth noting:

- The remainder left after cutting the base URL is shown untrimmed. Only
  its blankness is tested with `trim`. A URL without the base is likewise
  shown as it is, not trimmed.
- A link of an unknown type does not behave like a custom link in every
  case. A blank URL shows the type tag, whereas a custom link shows the
  blank URL.

## Model

| member | source | states |
|---|---|---|
| `JsString.Trim` | src/components/linklayout.tsx:124 | `trim` gives the empty string exactly when its input is blank; otherwise the result neither starts nor ends with whitespace or a line terminator |
| `JsString.TrimIsSlice` | src/components/linklayout.tsx:136 | `trim` returns a slice of its input and drops only whitespace and line terminators on either side of it |
| `JsString.IndexOfFrom` | src/components/linklayout.tsx:134 | the search from a start index returns the least index at or after it where the pattern occurs, or nothing when it occurs nowhere from there |
| `JsString.IndexOf` | src/components/linklayout.tsx:134 | the search `replace` performs returns the first occurrence of the pattern, and nothing exactly when the pattern does not occur |
| `JsString.RemoveFirst` | src/components/linklayout.tsx:134 | `replace(pattern, "")` cuts out exactly the first occurrence; an absent or empty pattern leaves the string unchanged; the length drops by the pattern's length exactly when it occurs |
| `JsString.RemoveFirstOfPrefix` | src/components/linklayout.tsx:134 | a string that starts with the pattern loses just that leading copy, even when later copies follow |
| `JsString.FirstOccurrenceAfter` | src/components/linklayout.tsx:134 | a pattern placed after text that lacks its first character first occurs right after that text |
| `SnsUrls.SnsUrl` | src/lib/utils.ts:19-30 | the base URL is non-empty exactly for instagram, facebook and threads, and each such URL starts with `https://www.` and ends in `/`; every other type, custom included, gets `""` |
| `SnsUrls.SnsUrlPlus` | src/lib/utils.ts:32-51 | agrees with `SnsUrl` wherever that has a URL; non-empty exactly for those three plus x, tiktok, naver and github; every URL ends in `/`, and all but tiktok's start with `https://` |
| `SnsUrls.SnsUrlPlusInjective` | src/lib/utils.ts:33-47 | no two types share a non-empty base URL |
| `LinkLayout.DisplayTitle` | src/components/linklayout.tsx:122-137 | a non-blank title is returned untrimmed; with no usable title a custom link gives its URL; any other type gives either a non-blank text or the type tag; the result is blank only for a custom link with a blank URL or a blank type tag |
| `LinkLayout.CutsFirstBaseOccurrence` | src/components/linklayout.tsx:134-136 | for a non-custom link without a usable title, the result is the URL with the first occurrence of the base URL cut out, untrimmed, or the type tag when that is blank |
| `LinkLayout.KeepsUrlWithoutBase` | src/components/linklayout.tsx:134-136 | when the base URL does not occur in the URL, or the type has no base URL, the URL is shown whole, or the type tag when the URL is blank |
| `LinkLayout.ProfileUrlShowsHandle` | src/components/linklayout.tsx:134-136 | a base URL followed by a non-blank handle shows exactly the handle, untrimmed |
| `LinkLayout.BareBaseUrlShowsType` | src/components/linklayout.tsx:136 | a bare base URL, perhaps followed by blank text, shows the type tag |
| `LinkLayout.CutsBaseInsideUrl` | src/components/linklayout.tsx:134 | the cut is not anchored: a base URL after other text is cut out of the middle, and the text around it is shown |
| `LinkLayout.InstagramHandleExample` | src/components/linklayout.tsx:122-137 | title `" "`, URL `https://www.instagram.com/alice`, type instagram shows `alice` |
| `LinkLayout.CustomUrlExample` | src/components/linklayout.tsx:128-131 | a custom link with an empty title shows its URL |
| `LinkLayout.TitleWinsExample` | src/components/linklayout.tsx:124-126 | title `My Page` is shown although the Facebook URL would give a handle |
| `LinkLayout.BareThreadsExample` | src/components/linklayout.tsx:133-136 | no title and URL `https://www.threads.net/` show `threads` |
| `LinkLayout.SelectLayout` | src/components/linklayout.tsx:169-183 | 1, 2, 3 and 4 select the carded column, the grid, the logo-only grid and the plain column, each if and only if; null and every other number select the prompt |
| `LinkLayout.Entries` | src/components/linklayout.tsx:26-119 | one entry per link, in input order, with the link's id, URL, image and raw title, captioned with its display title exactly when the layout shows titles |
| `LinkLayout.RenderLayout` | src/components/linklayout.tsx:169-185 | the prompt exactly when no layout is selected; otherwise the selected layout with one entry per link, in order, carrying the link's id, URL, image and raw title, and captioned with the link's display title exactly when the layout number is not 3 |
| `LinkLayout.LayoutsShareEntries` | src/components/linklayout.tsx:26-119 | layouts 1, 2 and 4 show the same entries, and layout 3 shows those entries without captions |

## Left out

- `getLinks` and the fetch of `/api/button-config` (src/components/linklayout.tsx:11-24, 154-155): HTTP calls to a backend that is not part of this model. The layout number and the link list are parameters instead.
- The state and effect of `LinkLayout` (src/components/linklayout.tsx:139-167): `useState`, `useEffect`, the asynchronous fetch, the `sessionStorage` read of the token and the error logging. They are framework and browser plumbing. The guard at lines 148-150 skips both fetches when the domain or the token is missing, so the layout stays unset and the list stays empty.
- Markup, CSS classes and the `Card` component: presentation only. Each entry keeps just the data it shows. The four layouts differ only in styling beyond the caption, so the model keeps the layout's name, not its style.
- `cn` (src/lib/utils.ts:15-17): a wrapper over the `clsx` and `tailwind-merge` libraries, which are not part of this model.
- src/lib/create-safe-context.ts: a wrapper over the framework's context mechanism.
- `JsString.RemoveFirst`: models `replace` only with the empty replacement, the one the source uses, so the `$` substitution patterns of GetSubstitution are not modelled.
- `JsString.Trim`, `JsString.RemoveFirst`: JavaScript strings are UTF-16 code units, while a Dafny `char` is a Unicode scalar value. All whitespace is in the Basic Multilingual Plane, and a pattern occurs in well-formed text at the same place in both views, so only unpaired surrogates are not modelled.
- `LinkLayout.SelectLayout`: the layout field is taken as an integer or null. Other JSON values (a string `"1"`, an object) would select the prompt under strict equality but are not modelled.
