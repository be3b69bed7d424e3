/**
 * The parts of the chat platform the bot touches: the card (`discord.Embed`)
 * it fills in, the buttons of a view (objects whose `disabled` flag is set in
 * place), and the responses sent back to an interaction.
 */
module Discord {
  import opened Wrappers

  datatype Field = Field(name: string, value: string, inline: bool)

  /**
   * An embed. Optional parts are None until a setter fills them; `set_image(url=None)`
   * and `set_thumbnail(url=None)` leave them None.
   */
  datatype Card = Card(
    title: Option<string>,
    url: Option<string>,
    description: Option<string>,
    color: Option<int>,
    author: Option<string>,
    footer: Option<string>,
    image: Option<string>,
    thumbnail: Option<string>,
    fields: seq<Field>)

  /** `discord.Color.dark_purple()`. */
  const DarkPurple: int := 0x71368a

  /** `discord.Embed(title=..., url=..., description=..., color=...)`: nothing else set yet. */
  function NewCard(title: Option<string>, url: Option<string>, description: Option<string>, color: Option<int>): Card {
    Card(title, url, description, color, None, None, None, None, [])
  }

  /** A button of a view. Its caption (the `label`) and link never change; `disabled` is set in place. */
  class Button {
    const caption: string
    const url: Option<string>
    var disabled: bool

    constructor (caption: string, url: Option<string>)
      ensures this.caption == caption && this.url == url && !disabled
    {
      this.caption := caption;
      this.url := url;
      disabled := false;
    }
  }

  /** How a button is shown at one moment. */
  datatype ButtonView = ButtonView(caption: string, url: Option<string>, disabled: bool)

  /** The view's buttons as they are shown when a message is sent or edited. */
  function Snapshot(buttons: seq<Button>): (views: seq<ButtonView>)
    reads buttons
    ensures |views| == |buttons|
    ensures forall i :: 0 <= i < |buttons| ==>
      views[i] == ButtonView(buttons[i].caption, buttons[i].url, buttons[i].disabled)
  {
    if buttons == [] then []
    else [ButtonView(buttons[0].caption, buttons[0].url, buttons[0].disabled)] + Snapshot(buttons[1..])
  }

  /** Where `item` first occurs among `items` (`|items|` when it does not). */
  function IndexOf(items: seq<Button>, item: Button): (i: nat)
    ensures i <= |items|
    ensures i < |items| ==> items[i] == item
    ensures forall j :: 0 <= j < i ==> items[j] != item
  {
    if items == [] then 0 else if items[0] == item then 0 else 1 + IndexOf(items[1..], item)
  }

  /**
   * `view.remove_item(item)`: the first occurrence of that very object is dropped
   * (`list.remove`); removing an item that is not there changes nothing.
   */
  function RemoveItem(items: seq<Button>, item: Button): (r: seq<Button>)
    ensures item !in items ==> r == items
    ensures item in items ==> |r| == |items| - 1
    ensures item in items ==> r == items[..IndexOf(items, item)] + items[IndexOf(items, item) + 1..]
  {
    var i := IndexOf(items, item);
    if i == |items| then items else items[..i] + items[i + 1..]
  }

  /** A response made through an interaction or a bound message, in the order it is made. */
  datatype Response =
    | EditMessage(card: Card, view: seq<ButtonView>)   // `interaction.response.edit_message(embed=..., view=...)`
    | Ephemeral(text: string)                          // `interaction.response.send_message(content=..., ephemeral=True)`
    | EditView(view: seq<ButtonView>)                  // `message.edit(view=...)`
}
