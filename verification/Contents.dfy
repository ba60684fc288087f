/** Contents of managed files; two files with the same contents are not told apart. */
module Contents {

  datatype Content = Content(bytes: string)
}
