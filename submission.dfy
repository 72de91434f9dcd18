/** The form submission as the `/submit` handler sees it: the parsed body, a
    map from field name to field value, and the metadata of the uploaded files. */
module Submission {

  /** `req.body`: field name to field value. */
  type Form = map<string, string>

  /** One element of `req.files`: the name the client gave the file and the
      path under which the upload was stored on disk. */
  datatype FileMeta = FileMeta(originalName: string, path: string)

  // Field names of the web form.
  const NameKey := "Имя"
  const PhoneKey := "Телефон"
  const EmailKey := "E-mail"
  const CommentKey := "Комментарий"
  const TotalKey := "Итоговая строка калькулятора с ценой"
  const ProductKey := "Вид продукции"
  const WidthKey := "Ширина"
  const HeightKey := "Высота"
  const MaterialKey := "Материал"
  const QuantityKey := "Количество"
  const GrommetsKey := "Установка люверсов"
  const GrommetCountKey := "Количество люверсов"
  const StandsKey := "Для стендов"
  const StandsDetailsKey := "stands_details"
  const FrameKey := "Обрамление"
  const FrameColorKey := "Цвет обрамления"

  /** The fields a submission must fill in. */
  const RequiredKeys: set<string> := {NameKey, PhoneKey, ProductKey, WidthKey, HeightKey, QuantityKey}

  /** JavaScript truthiness of `data[k]`: `undefined` and `""` are falsy,
      every other string (including "0" and "false") is truthy. */
  predicate Truthy(data: Form, k: string) {
    k in data && data[k] != ""
  }

  /** `data[k] || fallback`. */
  function OrElse(data: Form, k: string, fallback: string): (v: string)
    ensures Truthy(data, k) ==> v == data[k]
    ensures !Truthy(data, k) ==> v == fallback
  {
    if Truthy(data, k) then data[k] else fallback
  }

  /** `data[k] === 'on'`: a checkbox toggle. */
  predicate IsOn(data: Form, k: string) {
    k in data && data[k] == "on"
  }

  /** `${data[k]}` with no fallback: a missing field prints as "undefined". */
  function Show(data: Form, k: string): (v: string)
    ensures k in data ==> v == data[k]
  {
    if k in data then data[k] else "undefined"
  }

  /** The required-field check of the handler: it passes exactly when every
      required field is present and non-empty. */
  function Validate(data: Form): (ok: bool)
    ensures ok <==> forall k :: k in RequiredKeys ==> k in data && data[k] != ""
  {
    !(!Truthy(data, NameKey) || !Truthy(data, PhoneKey) || !Truthy(data, ProductKey)
      || !Truthy(data, WidthKey) || !Truthy(data, HeightKey) || !Truthy(data, QuantityKey))
  }

  /** Only the required fields decide validation: two submissions that agree
      on them are both accepted or both rejected, whatever their other fields. */
  lemma ValidateDependsOnlyOnRequired(d1: Form, d2: Form)
    requires forall k :: k in RequiredKeys ==> Truthy(d1, k) == Truthy(d2, k)
    ensures Validate(d1) == Validate(d2)
  {
  }

  /** A single missing or empty required field is enough to reject. */
  lemma MissingRequiredRejects(data: Form, k: string)
    requires k in RequiredKeys && !Truthy(data, k)
    ensures !Validate(data)
  {
  }
}
