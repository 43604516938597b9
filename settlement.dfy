/** The description written on the transaction that pays a shopping list. */
module Settlement {
  import opened Domain
  import opened Text

  /** How many items the description spells out before it only counts the rest. */
  const SHOWN_ITEMS: nat := 3

  /** `"{quantidade}x {descricao}"` for one item. */
  function ItemLabel(item: ListItem): string
  {
    IntToString(item.quantity) + "x " + item.description
  }

  /** The label of every item, in order. */
  function Labels(items: seq<ListItem>): seq<string>
  {
    seq(|items|, k requires 0 <= k < |items| => ItemLabel(items[k]))
  }

  /** The labels of the first three items joined with ", ", then
      `" e mais {n - 3} itens"` when there are more than three. */
  function ItemsSummary(items: seq<ListItem>): string
  {
    var n := |items|;
    var shown := if n <= SHOWN_ITEMS then items else items[..SHOWN_ITEMS];
    Join(Labels(shown), ", ") + (if n > SHOWN_ITEMS then " e mais " + IntToString(n - SHOWN_ITEMS) + " itens" else "")
  }

  /** `"Lista: {nome} ({itens_desc})"`. */
  function Description(listName: string, items: seq<ListItem>): string
  {
    "Lista: " + listName + " (" + ItemsSummary(items) + ")"
  }

  /** With at most three items every item is listed and nothing is counted: the
      summary is as long as all labels plus one ", " between each pair, so no
      label is cut and no count is appended; no items give an empty summary. */
  lemma {:induction false} ShortListShowsAll(items: seq<ListItem>)
    requires |items| <= SHOWN_ITEMS
    ensures |items| == 0 ==> ItemsSummary(items) == ""
    ensures |items| > 0 ==> |ItemsSummary(items)| == TotalLength(Labels(items)) + 2 * (|items| - 1)
  {
    assert Join(Labels(items), ", ") + "" == Join(Labels(items), ", ");
    if |items| > 0 {
      JoinLength(Labels(items), ", ");
    }
  }

  /** With more than three items, the first three are listed and the rest are
      counted; the count reads back as the number of items left out. */
  lemma {:induction false} LongListCountsRest(items: seq<ListItem>)
    requires |items| > SHOWN_ITEMS
    ensures var count := IntToString(|items| - SHOWN_ITEMS);
      && ItemsSummary(items) == Join(Labels(items[..SHOWN_ITEMS]), ", ") + " e mais " + count + " itens"
      && IsSignedDigits(count) && ParseInt(count) == |items| - SHOWN_ITEMS
  {
    IntToStringRoundTrip(|items| - SHOWN_ITEMS);
  }

  /** Three labels joined with ", ". */
  lemma {:induction false} JoinThree(a: string, b: string, c: string)
    ensures Join([a, b, c], ", ") == a + ", " + b + ", " + c
  {
    JoinAppend([a], [b], ", ");
    assert [a] + [b] == [a, b];
    JoinAppend([a, b], [c], ", ");
    assert [a, b] + [c] == [a, b, c];
  }

  /** The shopping of the worked example below. */
  const FEIRA: seq<ListItem> := [
    ListItem(1, "arroz", 2500, 1), ListItem(1, "feijao", 900, 2), ListItem(1, "cafe", 1800, 1),
    ListItem(1, "leite", 500, 6), ListItem(1, "pao", 100, 10)]

  /** The labels of its first three items. */
  lemma FeiraLabels()
    ensures Labels(FEIRA[..SHOWN_ITEMS]) == ["1x arroz", "2x feijao", "1x cafe"]
  {
    assert DigitChar(1) == '1' && DigitChar(2) == '2';
    assert IntToString(1) == "1" && IntToString(2) == "2";
    assert ItemLabel(FEIRA[0]) == "1x arroz" && ItemLabel(FEIRA[1]) == "2x feijao" && ItemLabel(FEIRA[2]) == "1x cafe";
  }

  /** The worked example of a five-item list: three listed, two counted. */
  lemma FiveItemExample()
    ensures Description("Feira", FEIRA)
      == "Lista: " + "Feira" + " (" + ("1x arroz" + ", " + "2x feijao" + ", " + "1x cafe" + " e mais " + "2" + " itens") + ")"
  {
    FeiraLabels();
    JoinThree("1x arroz", "2x feijao", "1x cafe");
    assert DigitChar(2) == '2' && IntToString(2) == "2";
  }
}
