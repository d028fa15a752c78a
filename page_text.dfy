/** The page text both extractors start from (popup.js:277-311, content.js:24-72): the
    first of ten content selectors that matches an element of the cleaned body clone,
    and the text of that element. The DOM is given as the texts of the elements that
    the selectors find. */
module PageText {
  import opened Wrappers

  /** The two texts an element offers: `innerText` and `textContent`. */
  datatype ElementText = ElementText(innerText: string, textContent: string)

  /** `element.innerText || element.textContent` */
  function TextOf(e: ElementText): (t: string)
    ensures t == "" <==> e.innerText == "" && e.textContent == ""
  {
    if e.innerText != "" then e.innerText else e.textContent
  }

  /** popup.js:288-299 and content.js:50-61, in this order. */
  const ContentSelectors: seq<string> :=
    ["main", "article", "[role=\"main\"]", ".content", ".main-content", ".post-content",
     ".entry-content", ".article-content", ".story-body", ".post-body"]

  /** The element that the first matching selector finds; `found` maps each selector to
      what `bodyClone.querySelector` returns for it, when it returns an element. */
  function FirstSelected(found: map<string, ElementText>, selectors: seq<string>): Option<ElementText>
    decreases |selectors|
  {
    if selectors == [] then None
    else if selectors[0] in found then Some(found[selectors[0]])
    else FirstSelected(found, selectors[1..])
  }

  /** The first match wins: it is the element of the earliest selector that finds one,
      and there is none only when no selector finds one. */
  lemma {:induction false} FirstSelectedIsFirst(found: map<string, ElementText>, selectors: seq<string>)
    ensures FirstSelected(found, selectors).None? <==>
              forall i | 0 <= i < |selectors| :: selectors[i] !in found
    ensures FirstSelected(found, selectors).Some? ==>
              exists i | 0 <= i < |selectors| ::
                && selectors[i] in found
                && FirstSelected(found, selectors).value == found[selectors[i]]
                && forall j | 0 <= j < i :: selectors[j] !in found
    decreases |selectors|
  {
    if selectors != [] && selectors[0] !in found {
      var rest := selectors[1..];
      FirstSelectedIsFirst(found, rest);
      forall i | 1 <= i < |selectors| ensures selectors[i] == rest[i - 1] {
      }
      if FirstSelected(found, rest).Some? {
        var k :| 0 <= k < |rest| && rest[k] in found
                 && FirstSelected(found, rest).value == found[rest[k]]
                 && forall j | 0 <= j < k :: rest[j] !in found;
        assert selectors[k + 1] == rest[k];
        forall j | 0 <= j < k + 1 ensures selectors[j] !in found {
          if j > 0 {
            assert selectors[j] == rest[j - 1];
          }
        }
      }
    } else if selectors != [] {
      assert selectors[0] in found;
    }
  }

  /** The text of the main content element, or `''` when no selector matches: the
      `for ... of` loop with its `break` (popup.js:301-308, content.js:63-70). */
  method FindMainContent(found: map<string, ElementText>) returns (content: string)
    ensures content == match FirstSelected(found, ContentSelectors)
                       case Some(e) => TextOf(e)
                       case None => ""
  {
    content := "";
    var i := 0;
    while i < |ContentSelectors|
      invariant 0 <= i <= |ContentSelectors|
      invariant FirstSelected(found, ContentSelectors) == FirstSelected(found, ContentSelectors[i..])
      invariant content == ""
    {
      var selector := ContentSelectors[i];
      if selector in found {
        content := TextOf(found[selector]);
        break;
      }
      assert ContentSelectors[i..][1..] == ContentSelectors[i + 1..];
      i := i + 1;
    }
  }
}
