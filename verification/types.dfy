/** The image record shared by the App component, the grid and the modal. */
module Types {
  import opened Utf16Text

  /** One generated image: an identifier, a `data:` URL and the prompt it came from. */
  datatype ImageResult = ImageResult(id: Text, url: Text, prompt: Text)
}
