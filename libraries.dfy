/** The parts of the feed-parsing library's data model that the record mapping reads:
    a parsed feed is a list of items, each with nested author records and
    namespace-keyed extension elements. */
module Gofeed {

  /** One `<author>` of an entry. */
  datatype Person = Person(name: string, email: string)

  /** One extension element, such as `<arxiv:doi>`; only its text content is read. */
  datatype Extension = Extension(name: string, value: string)

  /** The extension elements of one namespace, keyed by element name. */
  type ExtensionFields = map<string, seq<Extension>>

  /** One feed entry. `extensions` maps a namespace prefix (such as `arxiv`) to the
      elements of that namespace. */
  datatype Item = Item(
    title: string,
    description: string,
    link: string,
    published: string,
    authors: seq<Person>,
    guid: string,
    categories: seq<string>,
    extensions: map<string, ExtensionFields>)

  datatype Feed = Feed(items: seq<Item>)
}

/** The parts of the language-model library's data model that the tools and the chat
    loop exchange: documents of the vector store, callback-hook events and chat
    messages. */
module Langchain {

  /** A document of the vector store: string metadata and the text that is embedded. */
  datatype Document = Document(pageContent: string, metadata: map<string, string>)

  /** One call of a callbacks handler: `HandleToolStart(input)` or `HandleToolEnd(output)`. */
  datatype HookEvent = ToolStart(input: string) | ToolEnd(output: string)

  datatype FunctionCall = FunctionCall(name: string, arguments: string)

  /** A tool call requested by the model; `id` correlates it with its response. */
  datatype ToolCall = ToolCall(id: string, kind: string, functionCall: FunctionCall)

  /** One alternative answer of the model. */
  datatype ContentChoice = ContentChoice(content: string, toolCalls: seq<ToolCall>)

  datatype ContentResponse = ContentResponse(choices: seq<ContentChoice>)

  datatype ContentPart = TextContent(text: string) | ToolCallPart(call: ToolCall)

  datatype ChatMessageType = AI | Human | System | Generic | Tool | Function

  /** One message of a conversation: who speaks and the parts of what is said. */
  datatype MessageContent = MessageContent(role: ChatMessageType, parts: seq<ContentPart>)

  /** `llms.TextParts(role, text)`: a message with a single text part. */
  function TextParts(role: ChatMessageType, text: string): MessageContent
  {
    MessageContent(role, [TextContent(text)])
  }
}
