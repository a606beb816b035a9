/**
 * The new-procedure page (`NovoProcedimentoPage`): a record of string fields, the
 * before/after photo lists with upload and removal, and the required-field check.
 * A photo's random id and its object URL are drawn by the browser; here each incoming
 * file carries the ones it would be given.
 */
module NovoProcedimentoPage {
  import opened Wrappers
  import opened Lists
  import opened Strings

  /** Which gallery a photo belongs to. */
  datatype Tipo = Antes | Depois

  /** A file from the input, with the id and preview URL the page would draw for it. */
  datatype Incoming = Incoming(fileName: string, mimeType: string, id: string, preview: string)

  /** `FotoAnexada`. */
  datatype FotoAnexada = FotoAnexada(id: string, fileName: string, preview: string, tipo: Tipo)

  /** The initial `formData`: every field empty and the status "Agendado". */
  const InitialFormData: map<string, string> := map[
    "paciente" := "", "procedimento" := "", "data" := "", "horario" := "", "medico" := "",
    "anestesia" := "", "duracao" := "", "observacoes" := "", "cuidadosPrevios" := "",
    "cuidadosPosteriores" := "", "proximaConsulta" := "", "status" := "Agendado"
  ]

  /** A file is accepted iff its MIME type starts with "image/". */
  predicate IsImage(f: Incoming) {
    StartsWith(f.mimeType, "image/")
  }

  function Attach(f: Incoming, tipo: Tipo): FotoAnexada {
    FotoAnexada(f.id, f.fileName, f.preview, tipo)
  }

  /** The photos an upload adds: one per image file, in file order, all of the given kind. */
  function ImagesOf(files: seq<Incoming>, tipo: Tipo): (fotos: seq<FotoAnexada>)
    ensures |fotos| <= |files|
    ensures forall foto :: foto in fotos ==> foto.tipo == tipo
    ensures forall foto :: foto in fotos <==> exists f :: f in files && IsImage(f) && foto == Attach(f, tipo)
  {
    if files == [] then []
    else
      var rest := ImagesOf(files[1..], tipo);
      assert forall f :: f in files <==> f == files[0] || f in files[1..];
      if IsImage(files[0]) then [Attach(files[0], tipo)] + rest else rest
  }

  /** Uploading in two batches adds what one batch of both would. */
  lemma {:induction false} ImagesOfAppend(a: seq<Incoming>, b: seq<Incoming>, tipo: Tipo)
    ensures ImagesOf(a + b, tipo) == ImagesOf(a, tipo) + ImagesOf(b, tipo)
  {
    if a == [] {
      assert a + b == b;
    } else {
      assert (a + b)[1..] == a[1..] + b;
      ImagesOfAppend(a[1..], b, tipo);
    }
  }

  /** A field is filled in: present and not the empty string (JavaScript truthiness). */
  predicate Filled(formData: map<string, string>, field: string) {
    field in formData && formData[field] != ""
  }

  /** The page's state. */
  class NovoProcedimento {
    var formData: map<string, string>
    var fotosAntes: seq<FotoAnexada>
    var fotosDepois: seq<FotoAnexada>

    constructor ()
      ensures formData == InitialFormData && fotosAntes == [] && fotosDepois == []
    {
      formData := InitialFormData;
      fotosAntes := [];
      fotosDepois := [];
    }

    /** `handleInputChange(field, value)`: that field takes the value, every other keeps its own. */
    method HandleInputChange(field: string, value: string)
      modifies this
      ensures formData == old(formData)[field := value]
      ensures fotosAntes == old(fotosAntes) && fotosDepois == old(fotosDepois)
    {
      formData := formData[field := value];
    }

    /**
     * `handleFileUpload(files, tipo)`: no file list changes nothing; otherwise the image
     * files, in order, are appended to the chosen gallery and the other is untouched.
     */
    method HandleFileUpload(files: Option<seq<Incoming>>, tipo: Tipo)
      modifies this
      ensures files.None? ==> fotosAntes == old(fotosAntes) && fotosDepois == old(fotosDepois)
      ensures files.Some? && tipo == Antes ==>
        fotosAntes == old(fotosAntes) + ImagesOf(files.value, Antes) && fotosDepois == old(fotosDepois)
      ensures files.Some? && tipo == Depois ==>
        fotosDepois == old(fotosDepois) + ImagesOf(files.value, Depois) && fotosAntes == old(fotosAntes)
      ensures formData == old(formData)
    {
      if files.None? {
        return;
      }
      var list := files.value;
      var newFotos: seq<FotoAnexada> := [];
      var i := 0;
      while i < |list|
        invariant 0 <= i <= |list|
        invariant newFotos == ImagesOf(list[..i], tipo)
        invariant fotosAntes == old(fotosAntes) && fotosDepois == old(fotosDepois) && formData == old(formData)
      {
        var file := list[i];
        ImagesOfAppend(list[..i], [file], tipo);
        assert list[..i + 1] == list[..i] + [file];
        if StartsWith(file.mimeType, "image/") {
          newFotos := newFotos + [FotoAnexada(file.id, file.fileName, file.preview, tipo)];
        }
        i := i + 1;
      }
      assert list[..i] == list;
      if tipo == Antes {
        fotosAntes := fotosAntes + newFotos;
      } else {
        fotosDepois := fotosDepois + newFotos;
      }
    }

    /** `removerFoto(id, tipo)`: the chosen gallery loses the photos with that id. */
    method RemoverFoto(id: string, tipo: Tipo)
      modifies this
      ensures tipo == Antes ==> fotosAntes == Filter(old(fotosAntes), (f: FotoAnexada) => f.id != id) && fotosDepois == old(fotosDepois)
      ensures tipo == Depois ==> fotosDepois == Filter(old(fotosDepois), (f: FotoAnexada) => f.id != id) && fotosAntes == old(fotosAntes)
      ensures formData == old(formData)
    {
      if tipo == Antes {
        fotosAntes := Filter(fotosAntes, (f: FotoAnexada) => f.id != id);
      } else {
        fotosDepois := Filter(fotosDepois, (f: FotoAnexada) => f.id != id);
      }
    }

    /** `handleSubmit`: the record is accepted iff patient, procedure and date are filled in. */
    method HandleSubmit() returns (accepted: bool)
      ensures accepted <==> Filled(formData, "paciente") && Filled(formData, "procedimento") && Filled(formData, "data")
    {
      accepted := !(!Filled(formData, "paciente") || !Filled(formData, "procedimento") || !Filled(formData, "data"));
    }
  }

  /** Removing by id drops exactly the photos with that id and keeps the others in order. */
  lemma RemovalMeaning(fotos: seq<FotoAnexada>, id: string)
    ensures forall f :: f in Filter(fotos, (g: FotoAnexada) => g.id != id) <==> f in fotos && f.id != id
    ensures IsSubsequence(Filter(fotos, (g: FotoAnexada) => g.id != id), fotos)
    ensures (forall f :: f in fotos ==> f.id != id) ==> Filter(fotos, (g: FotoAnexada) => g.id != id) == fotos
  {
    if forall f :: f in fotos ==> f.id != id {
      FilterAll(fotos, (g: FotoAnexada) => g.id != id);
    }
  }

  /** The initial record is rejected, and filling in just its three required fields is enough. */
  lemma RequiredFields(paciente: string, procedimento: string, data: string)
    ensures !Filled(InitialFormData, "paciente")
    ensures var filled := InitialFormData["paciente" := paciente]["procedimento" := procedimento]["data" := data];
      Filled(filled, "paciente") && Filled(filled, "procedimento") && Filled(filled, "data")
      <==> paciente != "" && procedimento != "" && data != ""
  {
  }
}
