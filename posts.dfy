/** The post record the backend returns. */
module Posts {

  datatype Author = Author(id: string, username: string)

  /**
   * A post. `authorId` is the owner's identifier as a separate field; the
   * nested `author` carries the name shown in bylines. The timestamps are
   * kept as the strings the backend sends.
   */
  datatype Post = Post(
    id: string,
    title: string,
    content: string,
    createdAt: string,
    updatedAt: string,
    author: Author,
    authorId: string)
}
