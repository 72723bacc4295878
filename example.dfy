/** example.py: the agent's page handling. Terminal prompts, printing and the Notion
    calls themselves are not modelled: the search results, the page's blocks and the
    lines typed by the user are inputs, and the append the agent would issue is an output. */
module Example {
  import opened Wrappers
  import opened Python
  import opened Strings

  /** One rich-text element; `plainText` is None when the element has no `plain_text`. */
  datatype RichText = RichText(plainText: Option<string>)

  /** A block: its `type` and the `rich_text` list under the key of that type
      (empty when either is absent). */
  datatype Block = Block(kind: string, richText: seq<RichText>)

  /** A search result: its id and the `properties.title.title` rich-text list. */
  datatype Page = Page(id: string, title: seq<RichText>)

  /** The text a block contributes to the page content, if any. */
  function BlockText(b: Block): (t: Option<string>)
    ensures t.Some? <==>
              (b.kind == "paragraph" || b.kind == "numbered_list_item") &&
              |b.richText| > 0 && b.richText[0].plainText.Some? && b.richText[0].plainText.value != ""
    ensures t.Some? ==> t.value == b.richText[0].plainText.value
  {
    if (b.kind == "paragraph" || b.kind == "numbered_list_item") && |b.richText| > 0 then
      var text := match b.richText[0].plainText case Some(s) => s case None => "";
      if text != "" then Some(text) else None
    else None
  }

  /** The texts of the kept blocks, in block order. */
  function KeptTexts(blocks: seq<Block>): (texts: seq<string>)
    ensures forall i :: 0 <= i < |texts| ==> texts[i] != ""
    ensures |texts| <= |blocks|
  {
    if blocks == [] then []
    else
      var last := blocks[|blocks| - 1];
      KeptTexts(blocks[..|blocks| - 1]) + (match BlockText(last) case Some(t) => [t] case None => [])
  }

  /** Texts keep the order of their blocks: the content of two runs of blocks is the
      content of the first followed by that of the second. */
  lemma {:induction false} KeptTextsAppend(a: seq<Block>, b: seq<Block>)
    ensures KeptTexts(a + b) == KeptTexts(a) + KeptTexts(b)
  {
    if b == [] {
      assert a + b == a;
    } else {
      assert (a + b)[..|a + b| - 1] == a + b[..|b| - 1];
      assert (a + b)[|a + b| - 1] == b[|b| - 1];
      KeptTextsAppend(a, b[..|b| - 1]);
    }
  }

  /** A text is kept iff some block contributes it. */
  lemma {:induction false} KeptTextsMembers(blocks: seq<Block>, t: string)
    ensures t in KeptTexts(blocks) <==> exists i :: 0 <= i < |blocks| && BlockText(blocks[i]) == Some(t)
  {
    if blocks != [] {
      var init := blocks[..|blocks| - 1];
      KeptTextsMembers(init, t);
      if exists i :: 0 <= i < |blocks| && BlockText(blocks[i]) == Some(t) {
        var i :| 0 <= i < |blocks| && BlockText(blocks[i]) == Some(t);
        if i < |init| {
          assert init[i] == blocks[i];
        }
      }
      if exists i :: 0 <= i < |init| && BlockText(init[i]) == Some(t) {
        var i :| 0 <= i < |init| && BlockText(init[i]) == Some(t);
        assert blocks[i] == init[i];
      }
    }
  }

  /** `get_page_content`: the kept texts joined by newlines. */
  method GetPageContent(blocks: seq<Block>) returns (content: string)
    ensures content == Join(KeptTexts(blocks), "\n")
  {
    var texts: seq<string> := [];
    var i := 0;
    while i < |blocks|
      invariant 0 <= i <= |blocks|
      invariant texts == KeptTexts(blocks[..i])
    {
      assert blocks[..i + 1][..i] == blocks[..i];
      var block := blocks[i];
      if block.kind == "paragraph" {
        if |block.richText| > 0 {
          var text := match block.richText[0].plainText case Some(s) => s case None => "";
          if text != "" {
            texts := texts + [text];
          }
        }
      } else if block.kind == "numbered_list_item" {
        if |block.richText| > 0 {
          var text := match block.richText[0].plainText case Some(s) => s case None => "";
          if text != "" {
            texts := texts + [text];
          }
        }
      }
      i := i + 1;
    }
    assert blocks[..|blocks|] == blocks;
    content := Join(texts, "\n");
  }

  /** The content is empty exactly when no block is kept; when no kept text holds a
      newline, splitting the content at newlines gives back the kept texts. */
  lemma PageContentLines(blocks: seq<Block>)
    ensures Join(KeptTexts(blocks), "\n") == "" <==> KeptTexts(blocks) == []
    ensures KeptTexts(blocks) != [] && (forall i :: 0 <= i < |KeptTexts(blocks)| ==> '\n' !in KeptTexts(blocks)[i]) ==>
              Split(Join(KeptTexts(blocks), "\n"), '\n') == KeptTexts(blocks)
  {
    var texts := KeptTexts(blocks);
    if texts != [] {
      JoinNonEmptyLast(texts, "\n");
      if forall i :: 0 <= i < |texts| ==> '\n' !in texts[i] {
        SplitJoin(texts, '\n');
      }
    }
  }

  /** `title_array[0].get('plain_text', 'Untitled') if title_array else 'Untitled'` */
  function PageTitle(page: Page): (title: string)
    ensures |page.title| == 0 || page.title[0].plainText.None? ==> title == "Untitled"
    ensures |page.title| > 0 && page.title[0].plainText.Some? ==> title == page.title[0].plainText.value
  {
    if |page.title| == 0 then "Untitled"
    else match page.title[0].plainText
      case Some(t) => t
      case None => "Untitled"
  }

  /** The menu choice typed after the listing: digits naming a listed page, counted from 1. */
  function SelectPage(results: seq<Page>, selection: string): (r: Option<(string, string)>)
    ensures r.Some? <==> IsDigits(selection) && 1 <= ParseDecimal(selection) <= |results|
    ensures r.Some? ==> r.value == (results[ParseDecimal(selection) - 1].id, PageTitle(results[ParseDecimal(selection) - 1]))
  {
    if IsDigits(selection) && 1 <= ParseDecimal(selection) <= |results| then
      var page := results[ParseDecimal(selection) - 1];
      Some((page.id, PageTitle(page)))
    else None
  }

  /** `search_pages` after the search: no results give (None, None) without a
      selection being asked for. */
  function SearchPages(results: seq<Page>, selection: string): (r: Option<(string, string)>)
    ensures results == [] ==> r == None
    ensures results != [] ==> r == SelectPage(results, selection)
  {
    if results == [] then None else SelectPage(results, selection)
  }

  /** Typing the number listed beside a page selects that page, with the title the
      listing showed for it. */
  lemma SelectListedNumber(results: seq<Page>, i: nat)
    requires i < |results|
    ensures SearchPages(results, ShowNat(i + 1)) == Some((results[i].id, PageTitle(results[i])))
  {
    ParseShowNat(i + 1);
  }

  /** Where the input loop of `write_to_page` stops: the first line, from line 1 on,
      that is empty and follows an empty line. */
  function StopIndex(lines: seq<string>, from: nat): (r: Option<nat>)
    requires from >= 1
    decreases |lines| - from
    ensures r.Some? ==> from <= r.value < |lines| && lines[r.value] == "" && lines[r.value - 1] == ""
    ensures r.Some? ==> forall j :: from <= j < r.value ==> !(lines[j] == "" && lines[j - 1] == "")
    ensures r.None? ==> forall j :: from <= j < |lines| ==> !(lines[j] == "" && lines[j - 1] == "")
  {
    if from >= |lines| then None
    else if lines[from] == "" && lines[from - 1] == "" then Some(from)
    else StopIndex(lines, from + 1)
  }

  /** `write_to_page`'s loop over `input()`: the lines read before the stopping line,
      or EOFError when the input ends first. */
  method CollectLines(input: seq<string>) returns (r: Result<seq<string>, PyError>)
    ensures StopIndex(input, 1).Some? ==> r == Ok(input[..StopIndex(input, 1).value])
    ensures StopIndex(input, 1).None? ==> r == Err(EOFError)
  {
    var lines: seq<string> := [];
    var k := 0;
    while true
      invariant 0 <= k <= |input|
      invariant lines == input[..k]
      invariant forall j :: 1 <= j < k ==> !(input[j] == "" && input[j - 1] == "")
      decreases |input| - k
    {
      if k == |input| {
        return Err(EOFError);
      }
      var line := input[k];
      if line == "" && |lines| > 0 && lines[|lines| - 1] == "" {
        return Ok(lines);
      }
      lines := lines + [line];
      k := k + 1;
    }
  }

  /** `'\n'.join(lines[:-1])`: the collected lines without the final empty one. */
  function ContentOf(lines: seq<string>): (content: string)
    ensures content == "" <==> |lines| <= 1 || (|lines| == 2 && lines[0] == "")
  {
    if lines == [] then ""
    else
      JoinEmpty(lines[..|lines| - 1], "\n");
      assert |lines| == 2 ==> lines[..1] == [lines[0]];
      Join(lines[..|lines| - 1], "\n")
  }

  /** The content is empty only when the input starts with two empty lines, so an
      append happens for any other stopping input; its lines are the typed lines
      before the blank pair. */
  lemma CollectedContent(input: seq<string>)
    requires StopIndex(input, 1).Some?
    ensures ContentOf(input[..StopIndex(input, 1).value]) == "" <==> input[0] == "" && input[1] == ""
    ensures StopIndex(input, 1).value >= 2 && (forall j :: 0 <= j < |input| ==> '\n' !in input[j]) ==>
              Split(ContentOf(input[..StopIndex(input, 1).value]), '\n') == input[..StopIndex(input, 1).value - 1]
  {
    var s := StopIndex(input, 1).value;
    var kept := input[..s][..s - 1];
    assert kept == input[..s - 1];
    if s >= 2 {
      assert kept[|kept| - 1] == input[s - 2];
      assert input[s - 2] != "";
      JoinNonEmptyLast(kept, "\n");
      if forall j :: 0 <= j < |input| ==> '\n' !in input[j] {
        SplitJoin(kept, '\n');
      }
    }
  }

  /** The paragraph append `write_to_page` issues: to this page, holding the content. */
  datatype AppendParagraph = AppendParagraph(pageId: string, content: string)

  /** `write_to_page(notion, page_id)` with the user's lines as input: the append it
      issues (none for empty content), after which the SDK's failure, if any, propagates. */
  method WriteToPage(pageId: string, input: seq<string>, appendApi: AppendParagraph -> Option<PyError>)
    returns (r: Result<Option<AppendParagraph>, PyError>)
    ensures StopIndex(input, 1).None? ==> r == Err(EOFError)
    ensures StopIndex(input, 1).Some? ==>
              var content := ContentOf(input[..StopIndex(input, 1).value]);
              if content == "" then r == Ok(None)
              else if appendApi(AppendParagraph(pageId, content)).Some? then
                r == Err(appendApi(AppendParagraph(pageId, content)).value)
              else r == Ok(Some(AppendParagraph(pageId, content)))
  {
    var collected := CollectLines(input);
    match collected
    case Err(e) =>
      return Err(e);
    case Ok(lines) =>
      var content := ContentOf(lines);
      if content == "" {
        return Ok(None);
      }
      var call := AppendParagraph(pageId, content);
      match appendApi(call)
      case Some(e) =>
        return Err(e);
      case None =>
        return Ok(Some(call));
  }
}
