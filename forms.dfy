/** The browser's `FormData`, as the route actions read it. */
module Forms {

  /** `FormDataEntryValue | null`: what `FormData#get` returns. */
  datatype Entry = Null | File | Text(s: string)

  /** A submitted form: the first value under each name. */
  type FormData = map<string, Entry>

  /** `formData.get(name)`. */
  function Get(form: FormData, name: string): (e: Entry)
    ensures name !in form ==> e == Null
  {
    if name in form then form[name] else Null
  }
}
