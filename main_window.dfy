/**
 * The floating window's bookkeeping (gui/main_window.py): the text blocks it
 * holds, keyed by kind in insertion order, the dividers between them, the
 * status, the translated flag with the translate button, and the height
 * arithmetic that sizes the window to its content. Painting, styles, screen
 * placement and scrolling are not modelled; the font-metric height of a
 * block's text is a function the window is given.
 */
module MainWindow {
  import opened Json

  /** The three block types the controller creates ("asr", "optimize", "translate"). */
  datatype Kind = Asr | Optimize | Translate

  /** The six status values (`STATE_LISTENING` … `STATE_ERROR`). */
  datatype WindowState = Listening | Recognizing | Optimizing | Done | Translating | Error

  // Layout constants of a text block.
  const TitleHeight := 16
  const PaddingV := 6
  const TitleSpacing := 4

  // Layout constants of the window.
  const MaxHeight := 520
  const MinHeight := 60
  const OuterMargin := 10
  const InnerMarginV := 10
  const InnerSpacing := 6
  const StatusHeight := 18
  const Border := 2
  /** The translate button (30) and the margin above it (4). */
  const ButtonRow := 30 + 4

  /** `calc_block_height`: paddings, title row and spacing around the text. */
  function BlockHeight(text: string, textHeight: string -> nat): (h: nat)
    ensures h == 32 + textHeight(text)
  {
    PaddingV * 2 + TitleHeight + TitleSpacing + textHeight(text)
  }

  /** The fixed part of the window: status bar, margins, border, and the
      button row when the button is visible. */
  function ChromeHeight(buttonVisible: bool): (h: nat)
    ensures h == if buttonVisible then 106 else 72
  {
    InnerMarginV + StatusHeight + InnerSpacing + InnerSpacing
    + (if buttonVisible then ButtonRow else 0)
    + InnerMarginV + OuterMargin * 2 + Border
  }

  /** Sum of the block heights of the texts. */
  function SumHeights(texts: seq<string>, textHeight: string -> nat): nat
  {
    if texts == [] then 0
    else SumHeights(texts[..|texts| - 1], textHeight) + BlockHeight(texts[|texts| - 1], textHeight)
  }

  /** The content height: every block, and a one-pixel divider between two
      neighbouring blocks. */
  function ContentHeight(texts: seq<string>, textHeight: string -> nat): nat
  {
    if texts == [] then 0 else SumHeights(texts, textHeight) + |texts| - 1
  }

  /** `ideal_h`. */
  function IdealHeight(buttonVisible: bool, texts: seq<string>, textHeight: string -> nat): (h: nat)
    ensures h >= ChromeHeight(buttonVisible)
  {
    ChromeHeight(buttonVisible) + ContentHeight(texts, textHeight)
  }

  /** `max(60, min(ideal_h, _MAX_H))`. */
  function Clamp(ideal: int): (h: int)
    ensures MinHeight <= h <= MaxHeight
    ensures MinHeight <= ideal <= MaxHeight ==> h == ideal
    ensures ideal > MaxHeight ==> h == MaxHeight
    ensures ideal < MinHeight ==> h == MinHeight
  {
    var capped := if ideal <= MaxHeight then ideal else MaxHeight;
    if capped >= MinHeight then capped else MinHeight
  }

  /** The floor of 60 pixels never takes effect: the chrome alone is 72, so
      the window height is the ideal height capped at 520. */
  lemma FloorNeverApplies(buttonVisible: bool, texts: seq<string>, textHeight: string -> nat)
    ensures var ideal := IdealHeight(buttonVisible, texts, textHeight);
            Clamp(ideal) == (if ideal <= MaxHeight then ideal else MaxHeight)
  {
  }

  /** What the height loop adds for one more block: its height, and a divider
      unless it is the first. */
  lemma ContentHeightAppend(texts: seq<string>, t: string, textHeight: string -> nat)
    ensures ContentHeight(texts + [t], textHeight)
            == ContentHeight(texts, textHeight) + (if texts == [] then 0 else 1) + BlockHeight(t, textHeight)
  {
    assert (texts + [t])[..|texts|] == texts;
    assert SumHeights(texts + [t], textHeight) == SumHeights(texts, textHeight) + BlockHeight(t, textHeight);
  }

  lemma {:induction false} SumHeightsConcat(a: seq<string>, b: seq<string>, textHeight: string -> nat)
    ensures SumHeights(a + b, textHeight) == SumHeights(a, textHeight) + SumHeights(b, textHeight)
    decreases |b|
  {
    if b == [] {
      assert a + b == a;
    } else {
      var n := |b| - 1;
      assert (a + b)[..|a + b| - 1] == a + b[..n];
      SumHeightsConcat(a, b[..n], textHeight);
    }
  }

  lemma SumHeightsRemove(texts: seq<string>, j: nat, textHeight: string -> nat)
    requires j < |texts|
    ensures SumHeights(texts, textHeight)
            == SumHeights(texts[..j] + texts[j + 1..], textHeight) + BlockHeight(texts[j], textHeight)
  {
    assert texts == texts[..j] + [texts[j]] + texts[j + 1..];
    SumHeightsConcat(texts[..j] + [texts[j]], texts[j + 1..], textHeight);
    SumHeightsConcat(texts[..j], [texts[j]], textHeight);
    SumHeightsConcat(texts[..j], texts[j + 1..], textHeight);
    assert SumHeights([texts[j]], textHeight) == BlockHeight(texts[j], textHeight) by {
      assert [texts[j]][..0] == [];
    }
  }

  /** The window height does not depend on the order of the blocks, only on
      which texts they hold. */
  lemma {:induction false} ContentHeightOrderFree(texts: seq<string>, others: seq<string>, textHeight: string -> nat)
    requires multiset(texts) == multiset(others)
    ensures ContentHeight(texts, textHeight) == ContentHeight(others, textHeight)
    decreases |texts|
  {
    assert |texts| == |multiset(texts)| == |others|;
    if texts != [] {
      var n := |texts| - 1;
      var last := texts[n];
      assert texts == texts[..n] + [last];
      assert last in multiset(others);
      var j :| 0 <= j < |others| && others[j] == last;
      var rest := others[..j] + others[j + 1..];
      assert others == others[..j] + [last] + others[j + 1..];
      assert multiset(texts[..n]) == multiset(texts) - multiset{last};
      assert multiset(rest) == multiset(others) - multiset{last};
      ContentHeightOrderFree(texts[..n], rest, textHeight);
      SumHeightsRemove(others, j, textHeight);
      if texts[..n] != [] {
        assert rest != [];
      } else {
        assert rest == [];
      }
    }
  }

  /** The texts of the kinds in `order`, in that order. */
  function Ordered(order: seq<Kind>, texts: map<Kind, string>): (r: seq<string>)
    requires forall i :: 0 <= i < |order| ==> order[i] in texts
    ensures |r| == |order|
    ensures forall i :: 0 <= i < |order| ==> r[i] == texts[order[i]]
  {
    seq(|order|, i requires 0 <= i < |order| => texts[order[i]])
  }

  /** The rule `set_state` applies to the translate button. */
  function ShowButton(state: WindowState, translated: bool): (shown: bool)
    ensures shown <==> state == Done && !translated
  {
    state == Done && !translated
  }

  /** `order` lists the dict's keys, each once (so there are as many
      entries as keys); each kind has its own block; a divider was added for
      every block after the first. */
  predicate BlocksConsistent<B(==)>(blocks: map<Kind, B>, order: seq<Kind>, dividers: nat)
  {
    && |blocks| == |order|
    && (forall i :: 0 <= i < |order| ==> order[i] in blocks)
    && (forall i, j :: 0 <= i < j < |order| ==> order[i] != order[j])
    && (forall k1, k2 :: k1 in blocks && k2 in blocks && k1 != k2 ==> blocks[k1] != blocks[k2])
    && (order == [] ==> dividers == 0)
    && (order != [] ==> dividers >= |order| - 1)
  }

  /** Adding a block that is not in the dict yet keeps the dict consistent. */
  lemma AddKeepsConsistent<B>(blocks: map<Kind, B>, order: seq<Kind>, dividers: nat, kind: Kind, block: B)
    requires BlocksConsistent(blocks, order, dividers)
    requires forall k :: k in blocks ==> blocks[k] != block
    ensures BlocksConsistent(blocks[kind := block], if kind in blocks then order else order + [kind],
                             dividers + (if blocks != map[] then 1 else 0))
  {
    assert blocks == map[] ==> order == [] by {
      if order != [] {
        assert order[0] in blocks;
      }
    }
    assert forall i :: 0 <= i < |order| ==> order[i] != kind || kind in blocks;
  }

  /** One text block; `text` is its `_plain_text`. */
  class TextBlock {
    var text: string

    constructor()
      ensures text == ""
    {
      text := "";
    }

    method SetText(t: string)
      modifies this
      ensures text == t
    {
      text := t;
    }

    method AppendText(t: string)
      modifies this
      ensures text == old(text) + t
    {
      text := text + t;
    }

    method GetText() returns (t: string)
      ensures t == text
    {
      t := text;
    }

    method CalcBlockHeight(textHeight: string -> nat) returns (h: nat)
      ensures h == BlockHeight(text, textHeight)
    {
      h := PaddingV * 2 + TitleHeight + TitleSpacing + textHeight(text);
    }
  }

  /**
   * The window. `blocks` is the `_blocks` dict and `order` its key order;
   * `dividers` counts the `_dividers` list; `buttonShown` is what was last
   * passed to the button's `setVisible`, and the button is on screen only
   * while the window is visible too. `reflowPending` is the 60 ms reflow
   * timer running, and `height` the last fixed height.
   */
  class FloatingWindow {
    const textHeight: string -> nat
    const hasScreen: bool
    var state: Option<WindowState>
    var blocks: map<Kind, TextBlock>
    var order: seq<Kind>
    var dividers: nat
    var translated: bool
    var buttonShown: bool
    var visible: bool
    var autoScroll: bool
    var reflowPending: bool
    var height: int

    /** The blocks, their order and the dividers agree, and the button is
        only ever shown for an untranslated finished session. */
    predicate Valid()
      reads this`blocks, this`order, this`dividers, this`buttonShown, this`state, this`translated
    {
      && BlocksConsistent(blocks, order, dividers)
      && (buttonShown ==> state == Some(Done) && !translated)
    }

    /** The block texts in dict order. */
    function OrderedTexts(): (texts: seq<string>)
      requires Valid()
      reads this`blocks, this`order, this`dividers, this`buttonShown, this`state, this`translated, blocks.Values
      ensures |texts| == |order|
      ensures forall i :: 0 <= i < |order| ==> texts[i] == blocks[order[i]].text
    {
      var o, b := order, blocks;
      seq(|o|, i requires 0 <= i < |o| && o[i] in b reads b.Values => b[o[i]].text)
    }

    /** `ideal_h` for the current blocks and button. */
    function Ideal(): nat
      requires Valid()
      reads this`blocks, this`order, this`dividers, this`buttonShown, this`state, this`translated, blocks.Values
      reads this`visible
    {
      IdealHeight(ButtonVisible(), OrderedTexts(), textHeight)
    }

    function ButtonVisible(): bool
      reads this`buttonShown, this`visible
    {
      buttonShown && visible
    }

    constructor(textHeight: string -> nat, hasScreen: bool)
      ensures Valid()
      ensures this.textHeight == textHeight && this.hasScreen == hasScreen
      ensures state == None && blocks == map[] && order == [] && dividers == 0
      ensures !translated && !buttonShown && !visible && autoScroll && !reflowPending
    {
      this.textHeight := textHeight;
      this.hasScreen := hasScreen;
      state := None;
      blocks := map[];
      order := [];
      dividers := 0;
      translated := false;
      buttonShown := false;
      visible := false;
      autoScroll := true;
      reflowPending := false;
      height := 0;
    }

    /** `_defer_reflow`: auto-scroll on, reflow timer (re)started. */
    method DeferReflow()
      modifies this`autoScroll, this`reflowPending
      ensures autoScroll && reflowPending
    {
      autoScroll := true;
      reflowPending := true;
    }

    /** `add_block`: a divider first when some block exists; a kind added
        again gets a new empty block in its old place. */
    method AddBlock(kind: Kind) returns (block: TextBlock)
      requires Valid()
      modifies this`blocks, this`order, this`dividers, this`autoScroll, this`reflowPending
      ensures Valid()
      ensures fresh(block) && block.text == ""
      ensures blocks == old(blocks)[kind := block]
      ensures order == if kind in old(blocks) then old(order) else old(order) + [kind]
      ensures dividers == old(dividers) + (if old(blocks) != map[] then 1 else 0)
      ensures autoScroll && reflowPending
    {
      if blocks != map[] {
        dividers := dividers + 1;
      }
      block := new TextBlock();
      assert forall k :: k in blocks ==> blocks[k] != block;
      AddKeepsConsistent(blocks, order, old(dividers), kind, block);
      if kind !in blocks {
        order := order + [kind];
      }
      blocks := blocks[kind := block];
      DeferReflow();
    }

    /** `append_to_block`: nothing happens for a kind without a block. */
    method AppendToBlock(kind: Kind, text: string)
      requires Valid()
      modifies blocks.Values, this`autoScroll, this`reflowPending
      ensures Valid()
      ensures kind in blocks ==> blocks[kind].text == old(blocks[kind].text) + text
      ensures forall k :: k in blocks && k != kind ==> blocks[k].text == old(blocks[k].text)
      ensures kind in blocks ==> autoScroll && reflowPending
      ensures kind !in blocks ==> autoScroll == old(autoScroll) && reflowPending == old(reflowPending)
    {
      if kind in blocks {
        blocks[kind].AppendText(text);
        DeferReflow();
      }
    }

    /** `set_block_text`: nothing happens for a kind without a block. */
    method SetBlockText(kind: Kind, text: string)
      requires Valid()
      modifies blocks.Values, this`autoScroll, this`reflowPending
      ensures Valid()
      ensures kind in blocks ==> blocks[kind].text == text
      ensures forall k :: k in blocks && k != kind ==> blocks[k].text == old(blocks[k].text)
      ensures kind in blocks ==> autoScroll && reflowPending
      ensures kind !in blocks ==> autoScroll == old(autoScroll) && reflowPending == old(reflowPending)
    {
      if kind in blocks {
        blocks[kind].SetText(text);
        DeferReflow();
      }
    }

    /** `get_block_text`: "" for a kind without a block. */
    method GetBlockText(kind: Kind) returns (text: string)
      ensures kind in blocks ==> text == blocks[kind].text
      ensures kind !in blocks ==> text == ""
    {
      if kind in blocks {
        text := blocks[kind].GetText();
      } else {
        text := "";
      }
    }

    /** `clear_blocks`: no blocks, no dividers, not translated. */
    method ClearBlocks()
      requires Valid()
      modifies this`blocks, this`order, this`dividers, this`translated
      ensures Valid()
      ensures blocks == map[] && order == [] && dividers == 0 && !translated
    {
      blocks := map[];
      order := [];
      dividers := 0;
      translated := false;
    }

    /** `set_state`: the button is shown exactly for an untranslated `done`. */
    method SetState(s: WindowState)
      requires Valid()
      modifies this`state, this`buttonShown
      ensures Valid()
      ensures state == Some(s)
      ensures buttonShown <==> s == Done && !translated
    {
      state := Some(s);
      buttonShown := ShowButton(s, translated);
    }

    /** `mark_translated`: the button is hidden. */
    method MarkTranslated()
      requires Valid()
      modifies this`translated, this`buttonShown
      ensures Valid()
      ensures translated && !buttonShown
    {
      translated := true;
      buttonShown := false;
    }

    /** The loop of `_reposition` over the blocks: each block's height, and
        a divider before every block but the first. */
    method ContentHeightNow() returns (content: nat)
      requires Valid()
      ensures content == ContentHeight(OrderedTexts(), textHeight)
    {
      ghost var texts := OrderedTexts();
      content := 0;
      var first := true;
      var i := 0;
      while i < |order|
        invariant 0 <= i <= |order|
        invariant first <==> i == 0
        invariant content == ContentHeight(texts[..i], textHeight)
      {
        if !first {
          content := content + 1;
        }
        first := false;
        var h := blocks[order[i]].CalcBlockHeight(textHeight);
        assert texts[i] == blocks[order[i]].text;
        ContentHeightAppend(texts[..i], texts[i], textHeight);
        assert texts[..i + 1] == texts[..i] + [texts[i]];
        content := content + h;
        i := i + 1;
      }
      assert texts[..i] == texts;
    }

    /** `_reposition`: the height is the clamped ideal height of the blocks in
        dict order; without a screen nothing after the resize happens, else
        auto-scroll is switched off when everything fits. */
    method Reposition()
      requires Valid()
      modifies this`height, this`autoScroll
      ensures height == Clamp(old(Ideal()))
      ensures autoScroll == if hasScreen && old(Ideal()) <= MaxHeight then false else old(autoScroll)
    {
      ghost var target := Ideal();
      var chrome := 0;
      chrome := chrome + InnerMarginV + StatusHeight + InnerSpacing + InnerSpacing;
      if buttonShown && visible {
        chrome := chrome + 30 + 4;
      }
      chrome := chrome + InnerMarginV + OuterMargin * 2 + Border;

      var content := ContentHeightNow();
      var ideal := chrome + content;
      assert ideal == target;
      height := Clamp(ideal);
      if hasScreen && ideal <= MaxHeight {
        autoScroll := false;
      }
    }

    /** The reflow timer fires. */
    method OnReflowTimer()
      requires Valid() && reflowPending
      modifies this`reflowPending, this`height, this`autoScroll
      ensures !reflowPending
      ensures height == Clamp(old(Ideal()))
      ensures autoScroll == if hasScreen && old(Ideal()) <= MaxHeight then false else old(autoScroll)
    {
      reflowPending := false;
      Reposition();
    }

    /** `show_at_bottom_center`: shown, then sized. */
    method ShowAtBottomCenter()
      requires Valid()
      modifies this`visible, this`height, this`autoScroll
      ensures visible
      ensures height == Clamp(IdealHeight(buttonShown, old(OrderedTexts()), textHeight))
      ensures autoScroll == if hasScreen && IdealHeight(buttonShown, old(OrderedTexts()), textHeight) <= MaxHeight
                            then false else old(autoScroll)
    {
      visible := true;
      Reposition();
    }

    /** `close()`: the window is hidden; the `window_closed` signal that its
        close event sends is the controller's business. */
    method Close()
      modifies this`visible
      ensures !visible
    {
      visible := false;
    }
  }
}
