/**
 * The document-creation page: the table of selectable document types, the
 * per-type form schema, the required-field check that gates submission, and
 * the page's state (the selected type, the entered values, the loading flag).
 */
module Dashboard {
  import opened Options
  import opened Seqs

  /** The HTML input used for a field; every entered value is a plain string regardless. */
  datatype InputKind = TextInput | NumberInput | TextAreaInput | DateInput

  /** One form-field descriptor. */
  datatype Field = Field(name: string, caption: string, kind: InputKind, required: bool)

  datatype DocumentTypeOption = DocumentTypeOption(value: string, caption: string)

  /** The choices offered by the document-type selector, in display order. */
  const DocumentTypes: seq<DocumentTypeOption> := [
    DocumentTypeOption("arrendamiento", "Contrato de Arrendamiento"),
    DocumentTypeOption("servicios", "Contrato de Servicios"),
    DocumentTypeOption("confidencialidad", "Acuerdo de Confidencialidad"),
    DocumentTypeOption("denuncia", "Denuncia"),
    DocumentTypeOption("compraventa", "Contrato de Compraventa")
  ]

  /** The five fields shared by the contract templates, and the schema of any unknown type. */
  const CommonFields: seq<Field> := [
    Field("titulo", "Título del Documento", TextInput, true),
    Field("parte1_nombre", "Nombre Parte 1", TextInput, true),
    Field("parte1_identificacion", "Identificación Parte 1", TextInput, true),
    Field("parte2_nombre", "Nombre Parte 2", TextInput, true),
    Field("parte2_identificacion", "Identificación Parte 2", TextInput, true)
  ]

  /** The types whose schema extends CommonFields. */
  const ContractTypes: set<string> := {"arrendamiento", "servicios", "confidencialidad", "compraventa"}

  /** The types that have a schema of their own. */
  const SchemaTypes: set<string> := ContractTypes + {"denuncia"}

  predicate DistinctNames(fields: seq<Field>) {
    forall i, j :: 0 <= i < j < |fields| ==> fields[i].name != fields[j].name
  }

  /** The form schema for a document-type tag. */
  function FormFields(docType: string): (fields: seq<Field>)
    ensures |fields| >= |CommonFields| && fields[0].name == "titulo"
    ensures forall i :: 0 <= i < |fields| ==> fields[i].required
    ensures DistinctNames(fields)
    ensures docType in ContractTypes ==> |fields| > |CommonFields| && fields[..|CommonFields|] == CommonFields
    ensures docType !in SchemaTypes ==> fields == CommonFields
  {
    if docType == "arrendamiento" then
      CommonFields + [
        Field("direccion_inmueble", "Dirección del Inmueble", TextInput, true),
        Field("canon_mensual", "Canon Mensual", NumberInput, true),
        Field("duracion_meses", "Duración (meses)", NumberInput, true),
        Field("deposito_garantia", "Depósito de Garantía", NumberInput, true)
      ]
    else if docType == "servicios" then
      CommonFields + [
        Field("descripcion_servicio", "Descripción del Servicio", TextAreaInput, true),
        Field("valor_total", "Valor Total", NumberInput, true),
        Field("plazo_entrega", "Plazo de Entrega (días)", NumberInput, true)
      ]
    else if docType == "confidencialidad" then
      CommonFields + [
        Field("informacion_confidencial", "Descripción de Información Confidencial", TextAreaInput, true),
        Field("duracion_anos", "Duración (años)", NumberInput, true)
      ]
    else if docType == "denuncia" then
      [
        Field("titulo", "Título de la Denuncia", TextInput, true),
        Field("denunciante_nombre", "Nombre del Denunciante", TextInput, true),
        Field("denunciante_identificacion", "Identificación del Denunciante", TextInput, true),
        Field("denunciado_nombre", "Nombre del Denunciado", TextInput, true),
        Field("hechos", "Descripción de los Hechos", TextAreaInput, true),
        Field("fecha_hechos", "Fecha de los Hechos", DateInput, true),
        Field("lugar_hechos", "Lugar de los Hechos", TextInput, true)
      ]
    else if docType == "compraventa" then
      CommonFields + [
        Field("descripcion_bien", "Descripción del Bien", TextAreaInput, true),
        Field("precio_venta", "Precio de Venta", NumberInput, true),
        Field("forma_pago", "Forma de Pago", TextInput, true)
      ]
    else
      CommonFields
  }

  /** Every selectable type has a schema of its own, not the fallback. */
  lemma SelectableTypesHaveOwnSchema()
    ensures |DocumentTypes| == 5
    ensures forall i :: 0 <= i < |DocumentTypes| ==>
              DocumentTypes[i].value in SchemaTypes && FormFields(DocumentTypes[i].value) != CommonFields
    ensures forall t :: t in SchemaTypes ==> exists i :: 0 <= i < |DocumentTypes| && DocumentTypes[i].value == t
  {
    forall i | 0 <= i < |DocumentTypes|
      ensures FormFields(DocumentTypes[i].value) != CommonFields
    {
      assert |FormFields(DocumentTypes[i].value)| != |CommonFields|;
    }
    forall t | t in SchemaTypes
      ensures exists i :: 0 <= i < |DocumentTypes| && DocumentTypes[i].value == t
    {
      if t == "arrendamiento" { assert DocumentTypes[0].value == t; }
      else if t == "servicios" { assert DocumentTypes[1].value == t; }
      else if t == "confidencialidad" { assert DocumentTypes[2].value == t; }
      else if t == "denuncia" { assert DocumentTypes[3].value == t; }
      else { assert DocumentTypes[4].value == t; }
    }
  }

  /** The complaint schema starts with its own title field and shares no party fields. */
  lemma ComplaintSchemaIsOwn()
    ensures FormFields("denuncia")[0].name == CommonFields[0].name
    ensures FormFields("denuncia")[0] != CommonFields[0]
    ensures forall i :: 1 <= i < |CommonFields| ==> CommonFields[i] !in FormFields("denuncia")
  {
  }

  /** JavaScript's `!formData[name]` is false: the key is present and its value is not empty. */
  predicate Filled(formData: map<string, string>, name: string) {
    name in formData && formData[name] != ""
  }

  /** The required fields of a schema that have no value yet, in schema order. */
  function MissingFields(fields: seq<Field>, formData: map<string, string>): (missing: seq<Field>)
    ensures forall f :: f in missing <==> f in fields && f.required && !Filled(formData, f.name)
    ensures IsSubsequence(missing, fields)
  {
    var absent := (f: Field) => f.required && !Filled(formData, f.name);
    FilterMembership(fields, absent);
    FilterIsSubsequence(fields, absent);
    Filter(fields, absent)
  }

  /**
   * After `name` takes `value`, the fields of any other name are missing exactly
   * as before, and those named `name` are missing exactly when `value` is empty.
   */
  lemma FieldChangeMissing(fields: seq<Field>, formData: map<string, string>, name: string, value: string)
    ensures forall f :: f in MissingFields(fields, formData[name := value]) <==>
              if f.name == name then f in fields && f.required && value == ""
              else f in MissingFields(fields, formData)
  {
  }

  /** Every required field of the schema has a value. */
  predicate AllRequiredFilled(fields: seq<Field>, formData: map<string, string>) {
    forall f :: f in fields && f.required ==> Filled(formData, f.name)
  }

  datatype Rejection = NoDocumentType | MissingRequired(fields: seq<Field>)
  datatype Verdict = Accepted | Rejected(reason: Rejection)

  /** The validation gate that runs before anything is sent to the backend. */
  function CheckSubmission(documentType: string, formData: map<string, string>): (v: Verdict)
    ensures v == Rejected(NoDocumentType) <==> documentType == ""
    ensures documentType != "" ==>
              (v == Accepted <==> AllRequiredFilled(FormFields(documentType), formData))
    ensures v.Rejected? && v.reason.MissingRequired? ==>
              v.reason.fields != [] &&
              IsSubsequence(v.reason.fields, FormFields(documentType)) &&
              forall f :: f in v.reason.fields ==> f.required && !Filled(formData, f.name)
  {
    if documentType == "" then Rejected(NoDocumentType)
    else
      var missing := MissingFields(FormFields(documentType), formData);
      if |missing| > 0 then
        assert missing[0] in missing;
        Rejected(MissingRequired(missing))
      else Accepted
  }

  const UntitledDocument := "Documento sin título"

  /** The title stored with a new document: the entered title, or a placeholder when it is empty. */
  function StoredTitle(formData: map<string, string>): (title: string)
    ensures title != ""
    ensures Filled(formData, "titulo") ==> title == formData["titulo"]
    ensures !Filled(formData, "titulo") ==> title == UntitledDocument
  {
    if Filled(formData, "titulo") then formData["titulo"] else UntitledDocument
  }

  /** Once the gate has let a form through, the stored title is always the entered one. */
  lemma AcceptedTitleIsEntered(documentType: string, formData: map<string, string>)
    ensures CheckSubmission(documentType, formData) == Accepted ==>
              "titulo" in formData && formData["titulo"] != "" && StoredTitle(formData) == formData["titulo"]
  {
    if CheckSubmission(documentType, formData) == Accepted {
      var first := FormFields(documentType)[0];
      assert first in FormFields(documentType) && first.required;
    }
  }

  /** The row sent to the `documents` table. */
  datatype DocumentRow = DocumentRow(userId: string, documentType: string, title: string, fieldsData: map<string, string>)

  /** What one press of the generate button led to. */
  datatype SubmitOutcome =
    | Blocked(reason: Rejection)
    | NotAuthenticated
    | InsertFailed(row: DocumentRow)
    | Saved(row: DocumentRow)

  /** The page's component state. */
  class DocumentForm {
    var documentType: string
    var formData: map<string, string>
    var loading: bool

    constructor ()
      ensures documentType == "" && formData == map[] && !loading
    {
      documentType := "";
      formData := map[];
      loading := false;
    }

    /** The selector's change handler. */
    method SelectDocumentType(value: string)
      modifies this
      ensures documentType == value
      ensures formData == old(formData) && loading == old(loading)
    {
      documentType := value;
    }

    /** An input's change handler: one key takes the new value, every other key keeps its own. */
    method FieldChange(name: string, value: string)
      modifies this
      ensures formData.Keys == old(formData).Keys + {name}
      ensures formData[name] == value
      ensures forall k :: k in old(formData) && k != name ==> formData[k] == old(formData)[k]
      ensures documentType == old(documentType) && loading == old(loading)
    {
      formData := formData[name := value];
    }

    /**
     * The generate button's handler. The gate runs first and, when it rejects,
     * nothing changes. Otherwise `loading` is raised for the backend calls: `user`
     * is what the authentication lookup returned and `insertSucceeds` whether the
     * insert reported no error. A successful insert clears the form; `loading` is
     * lowered again on every path that raised it.
     */
    method GeneratePdf(user: Option<string>, insertSucceeds: bool) returns (outcome: SubmitOutcome)
      modifies this
      ensures CheckSubmission(old(documentType), old(formData)).Rejected? ==>
                outcome == Blocked(CheckSubmission(old(documentType), old(formData)).reason) &&
                documentType == old(documentType) && formData == old(formData) && loading == old(loading)
      ensures CheckSubmission(old(documentType), old(formData)) == Accepted ==> !loading
      ensures CheckSubmission(old(documentType), old(formData)) == Accepted && user.None? ==>
                outcome == NotAuthenticated &&
                documentType == old(documentType) && formData == old(formData)
      ensures CheckSubmission(old(documentType), old(formData)) == Accepted && user.Some? ==>
                var row := DocumentRow(user.value, old(documentType), StoredTitle(old(formData)), old(formData));
                (insertSucceeds ==> outcome == Saved(row) && documentType == "" && formData == map[]) &&
                (!insertSucceeds ==> outcome == InsertFailed(row) &&
                                     documentType == old(documentType) && formData == old(formData))
      ensures outcome.Saved? ==> outcome.row.title == old(formData)["titulo"]
    {
      var verdict := CheckSubmission(documentType, formData);
      if verdict.Rejected? {
        return Blocked(verdict.reason);
      }
      AcceptedTitleIsEntered(documentType, formData);

      loading := true;
      if user.None? {
        outcome := NotAuthenticated;
      } else {
        var row := DocumentRow(user.value, documentType, StoredTitle(formData), formData);
        if insertSucceeds {
          outcome := Saved(row);
          formData := map[];
          documentType := "";
        } else {
          outcome := InsertFailed(row);
        }
      }
      loading := false;
    }
  }
}
