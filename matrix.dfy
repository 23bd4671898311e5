/**
 * The chat client, seen from the plugins as the log of the calls they make on it, and the
 * terms for what those calls carry (rendered messages, pictures, image events).
 */
module Matrix {
  import opened Wrappers
  import opened Host

  /** A value substituted into a message template. */
  datatype KeyValue =
    | Val(v: Value)            // a plain value (string, number or None)
    | Delta(seconds: real)     // `get_formatted_timedelta(timedelta(seconds=...))`, kept unrendered

  /** `template.format(**keys)`, kept unrendered: the template and the keys it is given. */
  datatype Message = Message(template: string, keys: map<string, KeyValue>)

  /** The PIL transposes the original plugin applies. */
  datatype Transpose = FlipLeftRight | FlipTopBottom | Rotate90 | Rotate270

  /** A decoded camera frame and the transposes applied to it, innermost first. */
  datatype Image = Decoded(data: seq<bv8>) | Transposed(base: Image, op: Transpose)

  /** The bytes handed to the upload: bytes as fetched or read, or the JPEG encoding of an image. */
  datatype Picture = Raw(data: seq<bv8>) | Jpeg(image: Image)

  /** The content of an `m.image` room message with mimetype `image/jpg`; width and height are left out. */
  datatype ImageContent = ImageContent(body: string, url: string)

  /** A call on the chat client, in the order the plugin makes them. */
  datatype Call =
    | ResolveAlias(alias: string)                                        // room_resolve_alias
    | SendMarkdown(roomId: string, text: Message)                        // room_send_markdown_message
    | SendImage(roomId: string, content: ImageContent)                   // room_send of m.room.message
    | Upload(picture: Picture, fileName: Option<string>, contentType: string)  // upload_media

  /** What the homeserver answers to an upload: nothing usable, or a JSON object of strings. */
  datatype UploadReply = NoReply | Reply(fields: map<string, string>)

  /** The number of alias resolutions in a call log. */
  function Resolutions(log: seq<Call>): nat {
    if log == [] then 0 else (if log[0].ResolveAlias? then 1 else 0) + Resolutions(log[1..])
  }

  /** The pictures uploaded in a call log, in order. */
  function Uploads(log: seq<Call>): seq<Picture> {
    if log == [] then [] else (if log[0].Upload? then [log[0].picture] else []) + Uploads(log[1..])
  }

  /** The text messages sent in a call log, in order. */
  function Texts(log: seq<Call>): seq<Message> {
    if log == [] then [] else (if log[0].SendMarkdown? then [log[0].text] else []) + Texts(log[1..])
  }

  lemma {:induction false} ResolutionsAppend(a: seq<Call>, b: seq<Call>)
    ensures Resolutions(a + b) == Resolutions(a) + Resolutions(b)
    decreases |a|
  {
    if a == [] {
      assert a + b == b;
    } else {
      assert (a + b)[1..] == a[1..] + b;
      ResolutionsAppend(a[1..], b);
    }
  }

  lemma {:induction false} TextsAppend(a: seq<Call>, b: seq<Call>)
    ensures Texts(a + b) == Texts(a) + Texts(b)
    decreases |a|
  {
    if a == [] {
      assert a + b == b;
    } else {
      assert (a + b)[0] == a[0];
      assert (a + b)[1..] == a[1..] + b;
      TextsAppend(a[1..], b);
      var head := if a[0].SendMarkdown? then [a[0].text] else [];
      calc {
        Texts(a + b);
        head + Texts(a[1..] + b);
        head + (Texts(a[1..]) + Texts(b));
        (head + Texts(a[1..])) + Texts(b);
      }
    }
  }

  lemma {:induction false} UploadsAppend(a: seq<Call>, b: seq<Call>)
    ensures Uploads(a + b) == Uploads(a) + Uploads(b)
    decreases |a|
  {
    if a == [] {
      assert a + b == b;
    } else {
      assert (a + b)[0] == a[0];
      assert (a + b)[1..] == a[1..] + b;
      UploadsAppend(a[1..], b);
      var head := if a[0].Upload? then [a[0].picture] else [];
      calc {
        Uploads(a + b);
        head + Uploads(a[1..] + b);
        head + (Uploads(a[1..]) + Uploads(b));
        (head + Uploads(a[1..])) + Uploads(b);
      }
    }
  }
}

/** The answers of everything outside the plugin to a single call of it. */
module Environment {
  import opened Matrix

  datatype World = World(
    directory: map<string, string>,      // homeserver: alias -> room id; a missing alias fails
    uploads: map<Picture, UploadReply>,  // homeserver: reply to uploading a picture; missing is NoReply
    cameras: map<string, seq<bv8>>,      // camera endpoints: URL -> frame; a missing URL raises
    files: map<string, seq<bv8>>,        // filesystem: captured snapshot path -> contents
    stamp: string)                       // time.strftime("%Y_%m_%d-%H_%M_%S")

  function UploadReplyFor(w: World, p: Picture): UploadReply {
    if p in w.uploads then w.uploads[p] else NoReply
  }
}
