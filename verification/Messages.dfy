/** Messages, channels and the per-connection formatter data that decides which
    messages a connection takes and how they are formatted.
    Models library/message.cpp, include/xiva/channel_id.hpp and
    library/formatters_data_channels.cpp. */
module Messages {

  datatype ChannelId = ChannelId(name: string, key: string) {
    predicate IsEmpty() {
      name == "" && key == ""
    }
  }

  /** What formatting a message for one connection yields: the formatter throws, the
      formatted text is empty (nothing is printed), or there is text to write. */
  datatype Printed = Throws | Nothing | Text(text: string)

  /** A message as one connection queues it. It carries the outcome its formatting there will
      have, so formatters may be arbitrary and need not be functions of the content. */
  datatype Message = Message(channel: ChannelId, printed: Printed)

  /** An element of a connection's queue; `Finish` is the null message. */
  datatype Entry = Finish | Post(message: Message)

  /** A message on its way to any number of connections, each of which formats it for itself. */
  datatype Mail = Mail(channel: ChannelId, prints: map<nat, Printed>) {
    /** The message as connection `c` queues it. */
    function For(c: nat): (r: Entry)
      ensures r.Post? && r.message.channel == channel
      ensures c in prints ==> r.message.printed == prints[c]
    {
      Post(Message(channel, if c in prints then prints[c] else Nothing))
    }
  }

  /** `NoData` stands for the null pointer, `Simple` for formatters_data_simple; `ids` are
      the keys of the channel map, in map order. */
  datatype FormatterData = NoData | Simple | Channels(ids: seq<ChannelId>) {

    /** The channel map is built from non-empty channel infos, and a map has no key twice. */
    predicate Valid() {
      Channels? ==> forall i, j :: 0 <= i < j < |ids| ==> ids[i] != ids[j]
    }

    function Subscriptions(): seq<ChannelId> {
      if Channels? then ids else []
    }

    /** `verdict` is the answer of the attached filter, `true` when there is none. */
    predicate Allows(m: Mail, verdict: bool) {
      match this
      case NoData => verdict
      case Simple => verdict
      case Channels(ids) => !m.channel.IsEmpty() && m.channel in ids && verdict
    }

    /** The lookup in find_formatter succeeds, so its `assert(false)` is not reached. */
    predicate FindsFormatter(m: Message) {
      Channels? ==> !m.channel.IsEmpty() && m.channel in ids
    }
  }

  /** The texts that a sequence of entries puts on the wire, in order. */
  function Texts(entries: seq<Entry>): seq<string> {
    if entries == [] then []
    else
      var last := entries[|entries| - 1];
      Texts(entries[..|entries| - 1]) +
      (if last.Post? && last.message.printed.Text? then [last.message.printed.text] else [])
  }
}
