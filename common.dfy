/** Values shared by the pages and components. */
module Common {

  /** A value that may be absent (`T | null` in the components). */
  datatype Option<T> = None | Some(value: T)

  /** The signed-in user that Index keeps and hands to Dashboard and ChatHub. */
  datatype User = User(name: string, email: string, employeeId: string)

  /** The browser `File` object, reduced to the properties the modelled code
      reads: its name and its MIME type string (`file.type`). */
  datatype File = File(name: string, mimeType: string)
}
