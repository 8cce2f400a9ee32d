/**
 * An HTML page after parsing, reduced to what the admin client asks of it by tag
 * name. Every list below is in document order, and a tag query returns all
 * matching descendants, so nested elements appear flattened.
 */
module Dom {

  datatype Option<+T> = None | Some(value: T)

  /** An element seen only through its attributes (an `a` or an `input`). */
  datatype Element = Element(attributes: map<string, string>)

  /** A `tr`: the text of each of its `td` cells and its `a` elements. */
  datatype Row = Row(cells: seq<string>, anchors: seq<Element>)

  /** A `form`: its `input` elements. */
  datatype Form = Form(inputs: seq<Element>)

  /**
   * A whole page: every `table` (as its `tr` rows), the text of every `h3` and
   * `h5`, every `ul` (as the text of its `li` items) and every `form`.
   */
  datatype Document = Document(
    tables: seq<seq<Row>>,
    h3s: seq<string>,
    h5s: seq<string>,
    lists: seq<seq<string>>,
    forms: seq<Form>)

  /** DOM getAttribute: the attribute's value, or the empty string when it is absent. */
  function Attribute(e: Element, name: string): string
  {
    if name in e.attributes then e.attributes[name] else ""
  }
}
