/**
 * The page script (src/entrypoints/instagram.content.ts): the three control
 * lookups, typing into the message editor and the delivery sequence.
 *
 * A page is the list of its elements in document order, each with the
 * attributes the lookups read; a lookup answers the index of the element it
 * picks. The page as it stands at each step of the delivery is a parameter,
 * since clicking and typing change it in ways the script does not control.
 */
module Content {
  import opened Wrappers
  import opened Strings
  import opened Types

  /** An element and the attributes the lookups read (absent attributes are `None`). */
  datatype Element = Element(
    tag: string,
    role: Option<string>,
    text: string,
    ariaLabel: Option<string>,
    ariaPlaceholder: Option<string>,
    contentEditable: Option<string>,
    lexicalEditor: Option<string>)

  type Page = seq<Element>

  /** The CSS selectors the lookups use; all of them ask for a `div`. */
  datatype Selector =
    | DivButton                        // div[role="button"]
    | LexicalEditor                    // div[data-lexical-editor="true"]
    | EditableTextbox                  // div[contenteditable="true"][role="textbox"]
    | PlaceholderHas(fragment: string) // div[aria-placeholder*="fragment"]
    | ButtonLabelled(name: string)     // div[role="button"][aria-label="name"]

  predicate Matches(sel: Selector, e: Element) {
    && e.tag == "div"
    && match sel
       case DivButton => e.role == Some("button")
       case LexicalEditor => e.lexicalEditor == Some("true")
       case EditableTextbox => e.contentEditable == Some("true") && e.role == Some("textbox")
       case PlaceholderHas(f) =>
         // `*=` with an empty value matches nothing
         e.ariaPlaceholder.Some? && f != [] && Contains(e.ariaPlaceholder.value, f)
       case ButtonLabelled(n) => e.role == Some("button") && e.ariaLabel == Some(n)
  }

  /** The first element from index `i` on that satisfies `p`, in document order. */
  function FirstFrom(page: Page, p: Element -> bool, i: nat): (r: Option<nat>)
    requires i <= |page|
    ensures r.None? <==> forall j :: i <= j < |page| ==> !p(page[j])
    ensures r.Some? ==> i <= r.value < |page| && p(page[r.value])
                        && forall j :: i <= j < r.value ==> !p(page[j])
    decreases |page| - i
  {
    if i == |page| then None
    else if p(page[i]) then Some(i)
    else FirstFrom(page, p, i + 1)
  }

  function First(page: Page, p: Element -> bool): Option<nat> {
    FirstFrom(page, p, 0)
  }

  /** `First` is pinned down by the first element that satisfies `p`. */
  lemma {:induction false} FirstIs(page: Page, p: Element -> bool, i: nat)
    requires i < |page| && p(page[i]) && forall j :: 0 <= j < i ==> !p(page[j])
    ensures First(page, p) == Some(i)
  {
  }

  /** `document.querySelector(sel)`. */
  function QuerySelector(page: Page, sel: Selector): Option<nat> {
    First(page, e => Matches(sel, e))
  }

  /** The earliest selector from `from` on that finds an element (`|sels|` when none does). */
  function FirstFinder(page: Page, sels: seq<Selector>, from: nat): (k: nat)
    requires from <= |sels|
    ensures from <= k <= |sels|
    ensures forall k' :: from <= k' < k ==> QuerySelector(page, sels[k']).None?
    ensures k < |sels| ==> QuerySelector(page, sels[k]).Some?
    decreases |sels| - from
  {
    if from == |sels| || QuerySelector(page, sels[from]).Some? then from
    else FirstFinder(page, sels, from + 1)
  }

  /** `querySelector(a) || querySelector(b) || ...`: the first element of the
      earliest selector that finds one. */
  function FirstOfSelectors(page: Page, sels: seq<Selector>): (r: Option<nat>)
    ensures r.None? <==> forall k :: 0 <= k < |sels| ==> QuerySelector(page, sels[k]).None?
    ensures r.Some? ==> exists k :: 0 <= k < |sels| && QuerySelector(page, sels[k]) == r
                          && forall k' :: 0 <= k' < k ==> QuerySelector(page, sels[k']).None?
  {
    var k := FirstFinder(page, sels, 0);
    if k < |sels| then QuerySelector(page, sels[k]) else None
  }

  // ---------------------------------------------------------------------
  // findMessageButton

  /** The two captions of the message button. */
  predicate IsMessageCaption(text: string) {
    text == "发消息" || text == "Message"
  }

  /** A `div[role=button]` whose trimmed text is one of the two captions. */
  predicate IsMessageButton(e: Element) {
    Matches(DivButton, e) && IsMessageCaption(Trim(e.text))
  }

  /** `findMessageButton`: the first message button in document order. */
  method FindMessageButton(page: Page) returns (r: Option<nat>)
    ensures r == First(page, IsMessageButton)
    ensures r.None? <==> forall j :: 0 <= j < |page| ==> !IsMessageButton(page[j])
    ensures r.Some? ==> r.value < |page| && IsMessageButton(page[r.value])
                        && forall j :: 0 <= j < r.value ==> !IsMessageButton(page[j])
  {
    var i := 0;
    while i < |page|
      invariant 0 <= i <= |page|
      invariant forall j :: 0 <= j < i ==> !IsMessageButton(page[j])
    {
      if Matches(DivButton, page[i]) {
        var text := Trim(page[i].text);
        if IsMessageCaption(text) {
          FirstIs(page, IsMessageButton, i);
          return Some(i);
        }
      }
      i := i + 1;
    }
    return None;
  }

  // ---------------------------------------------------------------------
  // findInputBox

  /** The four strategies, most specific first. */
  const InputSelectors: seq<Selector> :=
    [LexicalEditor, EditableTextbox, PlaceholderHas("发消息"), PlaceholderHas("Message")]

  /** `findInputBox`: the first element of the earliest strategy that finds
      one; nothing only when all four find nothing. */
  function FindInputBox(page: Page): (r: Option<nat>)
    ensures r.None? <==> forall k, j :: 0 <= k < 4 && 0 <= j < |page| ==> !Matches(InputSelectors[k], page[j])
    ensures r.Some? ==> exists k :: 0 <= k < 4 && QuerySelector(page, InputSelectors[k]) == r
                          && forall k' :: 0 <= k' < k ==> QuerySelector(page, InputSelectors[k']).None?
  {
    FirstOfSelectors(page, InputSelectors)
  }

  /** A Lexical editor on the page wins over every other candidate. */
  lemma LexicalEditorFirst(page: Page, j: nat)
    requires j < |page| && Matches(LexicalEditor, page[j])
    ensures FindInputBox(page) == QuerySelector(page, LexicalEditor)
  {
    assert QuerySelector(page, InputSelectors[0]).Some?;
  }

  // ---------------------------------------------------------------------
  // findSendButton

  const SendSelectors: seq<Selector> := [ButtonLabelled("发送"), ButtonLabelled("Send")]

  /** A `div[role=button]` labelled `发送` or `Send`: the test of the second pass. */
  predicate IsSendButton(e: Element) {
    Matches(DivButton, e) && (e.ariaLabel == Some("发送") || e.ariaLabel == Some("Send"))
  }

  /** The first pass misses only pages with no send button at all, so the
      second pass, which tests the same two labels, never finds one. */
  lemma SecondPassAddsNothing(page: Page)
    requires FirstOfSelectors(page, SendSelectors).None?
    ensures forall j :: 0 <= j < |page| ==> !IsSendButton(page[j])
  {
    assert QuerySelector(page, SendSelectors[0]).None? && QuerySelector(page, SendSelectors[1]).None?;
  }

  /** A `发送` button is taken even when a `Send` button comes earlier. */
  lemma ChineseLabelPreferred(page: Page, j: nat)
    requires j < |page| && Matches(ButtonLabelled("发送"), page[j])
    ensures FirstOfSelectors(page, SendSelectors) == QuerySelector(page, ButtonLabelled("发送"))
  {
    assert QuerySelector(page, SendSelectors[0]).Some?;
  }

  /** `findSendButton`: the two labelled selectors in turn, then a scan of every
      button; nothing exactly when no button carries either label. */
  method FindSendButton(page: Page) returns (r: Option<nat>)
    ensures r == FirstOfSelectors(page, SendSelectors)
    ensures r.None? <==> forall j :: 0 <= j < |page| ==> !IsSendButton(page[j])
    ensures r.Some? ==> r.value < |page| && IsSendButton(page[r.value])
  {
    r := FirstOfSelectors(page, SendSelectors);
    if r.Some? {
      var k :| 0 <= k < |SendSelectors| && QuerySelector(page, SendSelectors[k]) == r;
      return;
    }
    SecondPassAddsNothing(page);
    var i := 0;
    while i < |page|
      invariant 0 <= i <= |page|
      invariant forall j :: 0 <= j < |page| ==> !IsSendButton(page[j])
    {
      if Matches(DivButton, page[i]) {
        var name := page[i].ariaLabel;
        if name == Some("发送") || name == Some("Send") {
          // unreachable: the first pass would have found this button
          assert false;
        }
      }
      i := i + 1;
    }
  }

  // ---------------------------------------------------------------------
  // typeInLexicalEditor

  /** An event dispatched on the editor: its type and, for input events built
      with options, the input type and data. */
  datatype EditorEvent = EditorEvent(kind: string, inputType: Option<string>, data: Option<string>)

  /** The `insertText` input event that announces `data`. */
  function InsertText(data: string): EditorEvent {
    EditorEvent("input", Some("insertText"), Some(data))
  }

  /** The events of the primary path: one `insertText` per character, in order. */
  function InsertTextEvents(text: string): (r: seq<EditorEvent>)
    ensures |r| == |text|
    ensures forall k :: 0 <= k < |text| ==> r[k] == InsertText([text[k]])
  {
    if text == [] then [] else InsertTextEvents(text[..|text| - 1]) + [InsertText([text[|text| - 1]])]
  }

  /** The text the events carry, concatenated. */
  function EventData(events: seq<EditorEvent>): string {
    if events == [] then []
    else EventData(events[..|events| - 1]) + (match events[|events| - 1].data case Some(d) => d case None => [])
  }

  /** The per-character events carry exactly the typed text. */
  lemma {:induction false} InsertTextEventsCarryText(text: string)
    ensures EventData(InsertTextEvents(text)) == text
  {
    if text != [] {
      var init := text[..|text| - 1];
      InsertTextEventsCarryText(init);
      assert InsertTextEvents(text)[..|text| - 1] == InsertTextEvents(init);
      assert init + [text[|text| - 1]] == text;
    }
  }

  /** The three events of the fallback path. */
  function FallbackEvents(text: string): seq<EditorEvent> {
    [EditorEvent("input", None, None), EditorEvent("change", None, None), InsertText(text)]
  }

  /** The message composer: the texts of its paragraphs, in order, and the
      events dispatched on it. */
  class Editor {
    var paragraphs: seq<string>
    var events: seq<EditorEvent>

    constructor(paragraphs: seq<string>)
      ensures this.paragraphs == paragraphs && events == []
    {
      this.paragraphs := paragraphs;
      events := [];
    }

    /** `typeInLexicalEditor`. The primary path builds a new paragraph one
        character at a time, announcing each one, and then makes it the only
        content. When the primary path throws before it starts (`primaryFault`),
        the fallback writes the whole text into the first paragraph, or into a
        new sole paragraph when there is none, and announces it three times. */
    method TypeText(text: string, primaryFault: bool)
      modifies this
      ensures !primaryFault ==> paragraphs == [text] && events == old(events) + InsertTextEvents(text)
      ensures primaryFault ==>
        && paragraphs == (if old(paragraphs) == [] then [text] else old(paragraphs)[0 := text])
        && events == old(events) + FallbackEvents(text)
    {
      if !primaryFault {
        // select everything and delete it
        paragraphs := [];
        var paragraph: string := [];
        for i := 0 to |text|
          invariant paragraph == text[..i]
          invariant events == old(events) + InsertTextEvents(text[..i])
        {
          paragraph := paragraph + [text[i]];
          assert text[..i + 1][..i] == text[..i];
          Associate(old(events), InsertTextEvents(text[..i]), [InsertText([text[i]])]);
          events := events + [InsertText([text[i]])];
        }
        assert text[..|text|] == text;
        paragraphs := [paragraph];
        return;
      }
      if paragraphs == [] {
        paragraphs := [text];
      } else {
        paragraphs := paragraphs[0 := text];
      }
      events := events + FallbackEvents(text);
    }
  }

  // ---------------------------------------------------------------------
  // executeDM

  /** A thrown value: an `Error` object, or anything else, shown as `String(value)`. */
  datatype Thrown = ErrorObject(message: string) | OtherValue(shown: string)

  /** The message the catch block reports. */
  function ErrorText(t: Thrown): string {
    match t
    case ErrorObject(m) => m
    case OtherValue(s) => s
  }

  /** What the catch block answers for a thrown value. */
  function Caught(t: Thrown): DMResult {
    DMResult(false, Some(ErrorText(t)))
  }

  const NoMessageButton: string := "找不到\"发消息\"按钮"
  const NoInputBox: string := "找不到输入框"
  const NoSendButton: string := "找不到发送按钮（可能消息为空）"

  /** The lookups of a delivery, in the order they are made. */
  datatype Lookup = MessageLookup | InputLookup | SendLookup

  /** `executeDM`: find the message button on the profile page, then the input
      box in the opened dialog, type, then find the send button and click it.
      The first missing control ends the run with its error and no later
      lookup is made; a value thrown by the final click is caught as well. */
  method ExecuteDM(profile: Page, dialog: Page, composed: Page, editor: Editor, text: string,
                   typingFault: bool, clickFault: Option<Thrown>)
    returns (r: DMResult, looked: seq<Lookup>)
    modifies editor
    ensures r.success <==>
      && First(profile, IsMessageButton).Some? && FindInputBox(dialog).Some?
      && FirstOfSelectors(composed, SendSelectors).Some? && clickFault.None?
    ensures r.success ==> r.error.None?
    ensures First(profile, IsMessageButton).None? ==>
      r == Caught(ErrorObject(NoMessageButton)) && looked == [MessageLookup]
    ensures First(profile, IsMessageButton).Some? && FindInputBox(dialog).None? ==>
      r == Caught(ErrorObject(NoInputBox)) && looked == [MessageLookup, InputLookup]
    ensures First(profile, IsMessageButton).Some? && FindInputBox(dialog).Some? ==>
      looked == [MessageLookup, InputLookup, SendLookup]
    ensures First(profile, IsMessageButton).Some? && FindInputBox(dialog).Some?
            && FirstOfSelectors(composed, SendSelectors).None? ==>
      r == Caught(ErrorObject(NoSendButton))
    ensures First(profile, IsMessageButton).Some? && FindInputBox(dialog).Some?
            && FirstOfSelectors(composed, SendSelectors).Some? && clickFault.Some? ==>
      r == Caught(clickFault.value)
    ensures First(profile, IsMessageButton).None? || FindInputBox(dialog).None? ==>
      editor.paragraphs == old(editor.paragraphs) && editor.events == old(editor.events)
    ensures First(profile, IsMessageButton).Some? && FindInputBox(dialog).Some? && !typingFault ==>
      editor.paragraphs == [text] && editor.events == old(editor.events) + InsertTextEvents(text)
    ensures First(profile, IsMessageButton).Some? && FindInputBox(dialog).Some? && typingFault ==>
      && editor.paragraphs == (if old(editor.paragraphs) == [] then [text] else old(editor.paragraphs)[0 := text])
      && editor.events == old(editor.events) + FallbackEvents(text)
  {
    looked := [MessageLookup];
    var button := FindMessageButton(profile);
    if button.None? {
      r := Caught(ErrorObject(NoMessageButton));
      return;
    }
    looked := [MessageLookup, InputLookup];
    var box := FindInputBox(dialog);
    if box.None? {
      r := Caught(ErrorObject(NoInputBox));
      return;
    }
    editor.TypeText(text, typingFault);
    looked := [MessageLookup, InputLookup, SendLookup];
    var send := FindSendButton(composed);
    if send.None? {
      r := Caught(ErrorObject(NoSendButton));
      return;
    }
    if clickFault.Some? {
      r := Caught(clickFault.value);
      return;
    }
    r := DMResult(true, None);
  }
}
