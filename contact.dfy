/**
 * The contact cards of index.js, script.js and legacy/script.js (`initContactCards`): a card with a
 * button and a non-empty `data-link` opens its link when the card or its button is clicked. On
 * script.js and legacy/script.js e-mail and telephone links open in the same window and everything
 * else in a new tab; index.js opens every link in a new tab. index.js and script.js wire the cards
 * after their unguarded slider setup, so a card that makes that setup throw leaves every contact
 * card of the page unwired.
 */
module Contact {
  import opened Wrappers
  import opened Text
  import opened Slider

  datatype Navigation =
    | SameWindow(url: string)   // `window.location.href = link`
    | NewTab(url: string)       // `window.open(link, '_blank')`

  /** `open()`: the navigation a click on a set-up card performs. */
  function Open(link: string): (n: Navigation)
    ensures n.url == link
    ensures n.SameWindow? <==> StartsWith(link, "mailto:") || StartsWith(link, "tel:")
  {
    if StartsWith(link, "mailto:") || StartsWith(link, "tel:") then SameWindow(link) else NewTab(link)
  }

  /**
   * The click handler a card ends up with: none without a `.contact-card-btn` or with a missing or
   * empty `data-link`, otherwise `open` for that link.
   */
  function CardHandler(hasButton: bool, link: Option<string>): (h: Option<Navigation>)
    ensures h.Some? <==> hasButton && link.Some? && link.value != ""
    ensures h.Some? ==> h.value.url == link.value
  {
    if hasButton && link.Some? && link.value != "" then Some(Open(link.value)) else None
  }

  /** The page scripts that wire contact cards. */
  datatype Page = IndexPage | ScriptPage | LegacyPage

  /**
   * The handler a card ends up with on `page`, whose project cards are `projectCards`. The
   * `DOMContentLoaded` handler calls `initProjectSliders()` just before `initContactCards()`; on
   * index.js and script.js the slider setup throws when some project card is not well formed (see
   * `SetUpUnguarded`), and the throw leaves the handler before any contact card is wired. The
   * guarded setup of legacy/script.js cannot throw.
   */
  function PageCardHandler(page: Page, projectCards: seq<Card>, hasButton: bool, link: Option<string>)
    : (h: Option<Navigation>)
    ensures h.Some? <==>
      && (page == LegacyPage || forall j :: 0 <= j < |projectCards| ==> UnguardedOk(projectCards[j]))
      && hasButton && link.Some? && link.value != ""
    ensures h.Some? ==> h.value.url == link.value
    ensures h.Some? && page == IndexPage ==> h.value == NewTab(link.value)
    ensures h.Some? && page != IndexPage ==> h.value == Open(link.value)
  {
    if page != LegacyPage && SetUpPrefix(projectCards) < |projectCards| then None
    else match CardHandler(hasButton, link)
      case None => None
      case Some(n) => if page == IndexPage then Some(NewTab(n.url)) else Some(n)
  }

  /** Links of every other scheme, such as web addresses, open in a new tab. */
  lemma WebLinksOpenNewTab(rest: string)
    ensures Open("https://" + rest) == NewTab("https://" + rest)
    ensures Open("mailto:" + rest) == SameWindow("mailto:" + rest)
    ensures Open("tel:" + rest) == SameWindow("tel:" + rest)
  {
    var w := "https://" + rest;
    assert w[0] == 'h';
    assert !StartsWith(w, "mailto:") && !StartsWith(w, "tel:");
    assert ("mailto:" + rest)[..7] == "mailto:";
    assert ("tel:" + rest)[..4] == "tel:";
  }
}
