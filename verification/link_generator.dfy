/**
 The link generator screen: two id fields, a generate button enabled only when
 both are filled in, and the generated affiliate link, which once set stays set.
 */
module LinkGenerator {
  import opened Types
  import opened Sequences

  /** The checkout address every generated link starts with. */
  const LinkPrefix: string := "https://pay.hotmart.com/"

  /** What separates the product id from the affiliate id. */
  const AffiliateQuery: string := "?aff="

  datatype LinkState = LinkState(
    productId: string,
    affiliateId: string,
    generatedLink: string,
    showCopied: bool)

  const InitialState: LinkState := LinkState("", "", "", false)

  /** The link for a product and an affiliate. */
  function AffiliateLink(productId: string, affiliateId: string): (r: string)
    ensures |r| == |productId| + |affiliateId| + 29
    ensures r[..|LinkPrefix|] == LinkPrefix
    ensures r[|LinkPrefix|..|LinkPrefix| + |productId|] == productId
    ensures r[|r| - |affiliateId| - |AffiliateQuery|..] == AffiliateQuery + affiliateId
  {
    var r := LinkPrefix + productId + AffiliateQuery + affiliateId;
    assert r[..|LinkPrefix|] == LinkPrefix;
    assert r[|LinkPrefix|..|LinkPrefix| + |productId|] == productId;
    assert r[|r| - |affiliateId| - |AffiliateQuery|..] == AffiliateQuery + affiliateId;
    r
  }

  /** An example: product "A1", affiliate "B2". */
  lemma ExampleLink()
    ensures AffiliateLink("A1", "B2") == "https://pay.hotmart.com/A1?aff=B2"
  {
  }

  /** Index of the first `c` in `s`, or `|s|` when there is none. */
  function IndexOf(s: string, c: char): (r: nat)
    ensures r <= |s|
    ensures r < |s| ==> s[r] == c
    ensures forall i :: 0 <= i < r ==> s[i] != c
  {
    if |s| == 0 then 0
    else if s[0] == c then 0
    else 1 + IndexOf(s[1..], c)
  }

  datatype LinkIds = LinkIds(productId: string, affiliateId: string)

  /** Reads the two ids back out of a link: the product id runs from the end of
      the prefix to the first '?', and the query must be exactly `?aff=`. */
  function ParseLink(link: string): (r: Option<LinkIds>)
    ensures r.Some? ==> AffiliateLink(r.value.productId, r.value.affiliateId) == link
  {
    if |link| < |LinkPrefix| || link[..|LinkPrefix|] != LinkPrefix then None
    else
      var rest := link[|LinkPrefix|..];
      var q := IndexOf(rest, '?');
      if |rest| - q < |AffiliateQuery| then None
      else if rest[q..q + |AffiliateQuery|] != AffiliateQuery then None
      else
        RebuildLink(link, q);
        Some(LinkIds(rest[..q], rest[q + |AffiliateQuery|..]))
  }

  /** A link that starts with the prefix and has the query at offset `q` after
      it is the link built from the text on either side of the query. */
  lemma RebuildLink(link: string, q: nat)
    requires |LinkPrefix| <= |link| && link[..|LinkPrefix|] == LinkPrefix
    requires q + |AffiliateQuery| <= |link| - |LinkPrefix|
    requires link[|LinkPrefix|..][q..q + |AffiliateQuery|] == AffiliateQuery
    ensures AffiliateLink(link[|LinkPrefix|..][..q], link[|LinkPrefix|..][q + |AffiliateQuery|..]) == link
  {
    var rest := link[|LinkPrefix|..];
    var productId, affiliateId := rest[..q], rest[q + |AffiliateQuery|..];
    SplitThree(rest, q, q + |AffiliateQuery|);
    assert rest == productId + AffiliateQuery + affiliateId;
    SplitThree(link, |LinkPrefix|, |LinkPrefix|);
    assert link == LinkPrefix + rest;
    assert LinkPrefix + (productId + AffiliateQuery + affiliateId)
        == LinkPrefix + productId + AffiliateQuery + affiliateId;
  }

  /** A product id without '?' is recovered from its link, and so is the affiliate id. */
  lemma ParseAffiliateLink(productId: string, affiliateId: string)
    requires '?' !in productId
    ensures ParseLink(AffiliateLink(productId, affiliateId)) == Some(LinkIds(productId, affiliateId))
  {
    var link := AffiliateLink(productId, affiliateId);
    var rest := link[|LinkPrefix|..];
    assert rest == productId + AffiliateQuery + affiliateId;
    assert rest[|productId|] == '?';
    assert IndexOf(rest, '?') == |productId|;
    assert rest[|productId|..|productId| + |AffiliateQuery|] == AffiliateQuery;
  }

  // ---------------------------------------------------------------------------
  // Screen events

  /** The generate button is enabled exactly when both ids are non-empty,
      although the affiliate field is labelled optional. */
  predicate CanGenerate(st: LinkState)
  {
    st.productId != "" && st.affiliateId != ""
  }

  /** Clicking "generate": with both ids present the link is rebuilt from them;
      otherwise nothing changes. */
  function Generate(st: LinkState): (r: LinkState)
    ensures CanGenerate(st) ==>
      r == st.(generatedLink := AffiliateLink(st.productId, st.affiliateId))
    ensures !CanGenerate(st) ==> r == st
    ensures r.generatedLink != "" <== CanGenerate(st)
  {
    if st.productId != "" && st.affiliateId != "" then
      st.(generatedLink := AffiliateLink(st.productId, st.affiliateId))
    else st
  }

  datatype LinkEvent =
    | EditProductId(value: string)
    | EditAffiliateId(value: string)
    | GenerateClicked
    | CopyClicked          // the clipboard write itself is not modelled
    | CopiedFlashExpired   // the two-second timer of the "copied" flash

  /** One event of the screen: the two fields, the generate button, the copy
      button and the end of the "copied" flash. */
  function Step(st: LinkState, e: LinkEvent): (r: LinkState)
    ensures e.EditProductId? ==> r == st.(productId := e.value)
    ensures e.EditAffiliateId? ==> r == st.(affiliateId := e.value)
    ensures e == GenerateClicked && CanGenerate(st) ==>
      r == st.(generatedLink := AffiliateLink(st.productId, st.affiliateId))
    ensures e == GenerateClicked && !CanGenerate(st) ==> r == st
    ensures e == CopyClicked ==> r == st.(showCopied := true)
    ensures e == CopiedFlashExpired ==> r == st.(showCopied := false)
    ensures e != GenerateClicked ==> r.generatedLink == st.generatedLink
  {
    match e
    case EditProductId(v) => st.(productId := v)
    case EditAffiliateId(v) => st.(affiliateId := v)
    case GenerateClicked => Generate(st)
    case CopyClicked => st.(showCopied := true)
    case CopiedFlashExpired => st.(showCopied := false)
  }

  function Run(st: LinkState, events: seq<LinkEvent>): LinkState
    decreases |events|
  {
    if |events| == 0 then st else Run(Step(st, events[0]), events[1..])
  }

  /** The result panel (link, copy button, QR code) is shown iff there is a link. */
  predicate ShowsResultPanel(st: LinkState)
  {
    st.generatedLink != ""
  }

  /** When the screen appears both fields and the link are empty, so the
      button is disabled and the result panel is hidden. */
  lemma InitiallyNothingToShow()
    ensures !CanGenerate(InitialState)
    ensures !ShowsResultPanel(InitialState)
    ensures !InitialState.showCopied
    ensures Step(InitialState, GenerateClicked) == InitialState
  {
  }

  /** Once a link has been generated, no sequence of events clears it. */
  lemma {:induction false} LinkNeverCleared(st: LinkState, events: seq<LinkEvent>)
    requires st.generatedLink != ""
    ensures Run(st, events).generatedLink != ""
    ensures ShowsResultPanel(Run(st, events))
    decreases |events|
  {
    if |events| > 0 {
      LinkNeverCleared(Step(st, events[0]), events[1..]);
    }
  }

  /** Whatever happens, the shown link is either the one shown before or one
      built from two non-empty ids. */
  lemma {:induction false} LinkAlwaysWellFormed(st: LinkState, events: seq<LinkEvent>)
    ensures var link := Run(st, events).generatedLink;
      link == st.generatedLink
      || exists p, a :: p != "" && a != "" && link == AffiliateLink(p, a)
    decreases |events|
  {
    if |events| > 0 {
      var next := Step(st, events[0]);
      LinkAlwaysWellFormed(next, events[1..]);
      if next.generatedLink != st.generatedLink {
        assert next.generatedLink == AffiliateLink(st.productId, st.affiliateId);
      }
    }
  }
}
