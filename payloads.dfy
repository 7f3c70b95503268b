/**
 * The JSON bodies the forms send and the create routes read. A field the
 * sender leaves out is None. Dates travel as the text of the form's input;
 * the routes turn that text into a timestamp.
 */
module Payloads {
  import opened Wrappers

  /** One media entry of a body: `{ id, type, url, caption }`. */
  datatype MediaInput = MediaInput(id: Option<string>, kind: string, url: string, caption: Option<string>)

  datatype StoryBody = StoryBody(
    title: Option<string>,
    content: Option<string>,
    excerpt: Option<string>,
    coverImage: Option<string>,
    author: Option<string>,
    tags: Option<seq<string>>,
    featured: Option<bool>,
    participantIds: Option<seq<string>>,
    media: Option<seq<MediaInput>>)

  datatype EventBody = EventBody(
    title: Option<string>,
    description: Option<string>,
    location: Option<string>,
    date: Option<string>,
    coverImage: Option<string>,
    createdBy: Option<string>,
    status: Option<string>,
    participantIds: Option<seq<string>>,
    media: Option<seq<MediaInput>>)

  datatype MemberBody = MemberBody(
    name: Option<string>,
    nickname: Option<string>,
    avatar: Option<string>,
    bio: Option<string>,
    role: Option<string>)
}
