/** The dialog forms of the pages, and the lookup of a related record's title. */
module Forms {

  /** A form's state: field name to current text, as in `useState({ title: "", ... })`. */
  type Form = map<string, string>

  /** `setForm(prev => ({ ...prev, [name]: value }))`: only the named field changes. */
  function SetField(form: Form, name: string, value: string): (r: Form)
    ensures r.Keys == form.Keys + {name}
    ensures r[name] == value
    ensures forall k :: k in form && k != name ==> r[k] == form[k]
  {
    form[name := value]
  }

  /** A form with the given fields, all empty: `{ name: "", email: "", ... }`. */
  function BlankForm(fields: set<string>): (f: Form)
    ensures f.Keys == fields
    ensures forall k :: k in f ==> f[k] == ""
  {
    map k | k in fields :: ""
  }

  /** A row of a related table as the pages fetch it for a select: `select("id, title")`. */
  datatype Titled = Titled(id: string, title: string)

  /** The first row whose id is `id`, or none: `rows.find(r => r.id === id)`. */
  function FindById(rows: seq<Titled>, id: string): (r: int)
    ensures -1 <= r < |rows|
    ensures r == -1 <==> forall i :: 0 <= i < |rows| ==> rows[i].id != id
    ensures r >= 0 ==> rows[r].id == id && forall i :: 0 <= i < r ==> rows[i].id != id
  {
    if rows == [] then -1
    else if rows[0].id == id then 0
    else
      var k := FindById(rows[1..], id);
      if k == -1 then -1 else k + 1
  }

  /** `selected ? selected.title : ""` for the row `FindById` picks. */
  function TitleOf(rows: seq<Titled>, id: string): (r: string)
    ensures (forall i :: 0 <= i < |rows| ==> rows[i].id != id) ==> r == ""
    ensures forall i :: 0 <= i < |rows| && rows[i].id == id && (forall j :: 0 <= j < i ==> rows[j].id != id)
                        ==> r == rows[i].title
  {
    var k := FindById(rows, id);
    if k == -1 then "" else rows[k].title
  }

  /**
   * The title copied into an insert from a select: the title of the row whose id the form's `field`
   * holds, or "" when the form has no such field.
   */
  function SelectedTitle(rows: seq<Titled>, form: Form, field: string): (name: string)
    ensures field !in form ==> name == ""
    ensures field in form ==> name == TitleOf(rows, form[field])
  {
    if field in form then TitleOf(rows, form[field]) else ""
  }

  /**
   * `{ ...form, [titleField]: title }` where the title is that of the row selected by the form's
   * `idField`: the form plus that one field, overriding any field of that name.
   */
  function WithSelectedTitle(rows: seq<Titled>, form: Form, idField: string, titleField: string): (row: Form)
    ensures row.Keys == form.Keys + {titleField}
    ensures row[titleField] == SelectedTitle(rows, form, idField)
    ensures forall k :: k in form && k != titleField ==> row[k] == form[k]
  {
    SetField(form, titleField, SelectedTitle(rows, form, idField))
  }
}
